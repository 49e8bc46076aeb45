/** Laws of the countries reducer over all states and all actions: which actions it
    ignores, slice isolation, the load cycle, idempotence, the invariants it preserves, and
    how filter updates compose. */
module ReducerLaws {
  import opened Wrappers
  import opened CountryModels
  import opened State
  import opened Actions
  import opened Reducer

  /** The slice an action is about, read off its action group. */
  function Owner(a: Action): SliceName {
    match a
    case LoadCountries(_, _, _) => List
    case LoadCountriesSuccess(_) => List
    case LoadCountriesFailure(_) => List
    case SetCurrentPage(_) => List
    case SetPageSize(_) => List
    case ResetPagination => List
    case InitializePagination(_, _) => List
    case SetFilters(_) => List
    case ClearFilters => List
    case ClearCountries => List
    case ResetError => List
    case LoadCountryLanguages(_) => Languages
    case LoadCountryLanguagesSuccess(_) => Languages
    case LoadCountryLanguagesFailure(_) => Languages
    case ClearCountryLanguages => Languages
    case SetSelectedCountry(_) => Languages
    case LoadCountryStats(_, _) => Stats
    case LoadCountryStatsSuccess(_) => Stats
    case LoadCountryStatsFailure(_) => Stats
    case SetCountryStatsPage(_) => Stats
    case SetCountryStatsPageSize(_) => Stats
    case ClearCountryStats => Stats
    case LoadRegions => Management
    case LoadRegionsSuccess(_) => Management
    case LoadRegionsFailure(_) => Management
    case LoadYearRange => Management
    case LoadYearRangeSuccess(_) => Management
    case LoadYearRangeFailure(_) => Management
    case LoadCountryStatsOverview(_, _, _) => Overview
    case LoadCountryStatsOverviewSuccess(_) => Overview
    case LoadCountryStatsOverviewFailure(_) => Overview
    case SetCountryStatsOverviewPage(_) => Overview
    case SetCountryStatsOverviewPageSize(_) => Overview
    case SetCountryStatsOverviewFilters(_) => Overview
    case ClearCountryStatsOverview => Overview
  }

  /** The reducer has a handler for exactly the list, language and statistics actions; the
      region, year-range and overview actions find no entry and leave the state unchanged. */
  lemma HandledExactly(s: CountriesState, a: Action)
    ensures TypeOf(a) in ReducerMapKeys <==> Owner(a) in {List, Languages, Stats}
    ensures Owner(a) in {Management, Overview} ==> Reduce(s, a) == s
  {
  }

  /** A type string that names none of this store's classes is not a key of the table. */
  lemma ForeignTypesMiss(t: string)
    requires TagOfType(t).None?
    ensures t !in ReducerMapKeys
  {
  }

  /** Whatever reaches the reducer with a type the table has no entry for (a region,
      year-range or overview action of this store, or any action of another feature or of the
      store itself) leaves the state as it is; before any state exists, that is the initial
      state. Only this store's list, language and statistics actions find an entry. */
  lemma UnlistedTypesIgnored(state: Option<CountriesState>, d: Dispatched)
    requires WellTyped(d)
    ensures TypeName(d) !in ReducerMapKeys ==> Dispatch(state, d) == state.GetOr(InitialCountriesState)
    ensures TypeName(d) in ReducerMapKeys <==> d.Own? && Owner(d.action) in {List, Languages, Stats}
  {
    match d
    case Own(a) => HandledExactly(state.GetOr(InitialCountriesState), a);
    case Foreign(t) => ForeignTypesMiss(t);
  }

  /** An inherited name is none of this store's types and none of the table's own keys, yet the
      lookup finds a member for it. Only `constructor` leaves the state as it is; `toString`
      returns text in place of a state and the rest throw. */
  /** No inherited name is one of this store's types. */
  lemma InheritedNamesForeign(t: string)
    requires t in ObjectPrototypeNames
    ensures TagOfType(t).None?
  {
    if t == "constructor" {} else if t == "hasOwnProperty" {} else if t == "isPrototypeOf" {}
    else if t == "propertyIsEnumerable" {} else if t == "toLocaleString" {} else if t == "toString" {}
    else if t == "valueOf" {} else if t == "__proto__" {} else if t == "__defineGetter__" {}
    else if t == "__defineSetter__" {} else if t == "__lookupGetter__" {} else {}
  }

  lemma InheritedNamesFound(state: Option<CountriesState>, t: string)
    requires t in ObjectPrototypeNames
    ensures TagOfType(t).None? && t !in ReducerMapKeys
    ensures Call(state, Foreign(t)) == Returns(state.GetOr(InitialCountriesState)) <==> t == "constructor"
    ensures Call(state, Foreign(t)) != Returns(state.GetOr(InitialCountriesState)) ==> !Call(state, Foreign(t)).Returns?
  {
    InheritedNamesForeign(t);
    ForeignTypesMiss(t);
  }

  /** The store's own start-up action creates the initial state and, like its reducer
      update action, leaves an existing state as it is. */
  lemma StoreLifecycleActions(s: CountriesState)
    ensures Dispatch(None, Foreign(STORE_INIT)) == InitialCountriesState
    ensures Dispatch(Some(s), Foreign(STORE_INIT)) == s
    ensures Dispatch(Some(s), Foreign(STORE_UPDATE)) == s
  {
  }

  /** Every transition leaves all slices other than the action's own untouched. */
  lemma SliceIsolation(s: CountriesState, a: Action)
    ensures AgreeOutside(s, Reduce(s, a), Owner(a))
  {
  }

  function SliceOf(s: CountriesState, n: SliceName): (r: (bool, Option<string>))
  {
    match n
    case List => (s.countriesList.loading, s.countriesList.error)
    case Languages => (s.countryLanguages.loading, s.countryLanguages.error)
    case Stats => (s.countryStats.loading, s.countryStats.error)
    case Management => (s.managementInfo.loading, s.managementInfo.error)
    case Overview => (s.countryStatsOverview.loading, s.countryStatsOverview.error)
  }

  /** No slice is loading while it shows an error. */
  predicate NoLoadingWithError(s: CountriesState) {
    forall n: SliceName :: !(SliceOf(s, n).0 && SliceOf(s, n).1.Some?)
  }

  /** A transition never produces a loading slice that also carries an error: starting a
      load clears the error, and every transition that stores an error clears the flag. */
  lemma PreservesNoLoadingWithError(s: CountriesState, a: Action)
    requires NoLoadingWithError(s)
    ensures NoLoadingWithError(Reduce(s, a))
  {
    var r := Reduce(s, a);
    SliceIsolation(s, a);
    OwnSliceNoLoadingWithError(s, a);
    forall n: SliceName
      ensures !(SliceOf(r, n).0 && SliceOf(r, n).1.Some?)
    {
      assert !(SliceOf(s, n).0 && SliceOf(s, n).1.Some?);
      if n != Owner(a) {
        AgreeOutsideSlice(s, r, Owner(a), n);
      }
    }
  }

  /** The slice an action is about never ends up loading with an error. */
  lemma OwnSliceNoLoadingWithError(s: CountriesState, a: Action)
    requires !(SliceOf(s, Owner(a)).0 && SliceOf(s, Owner(a)).1.Some?)
    ensures !(SliceOf(Reduce(s, a), Owner(a)).0 && SliceOf(Reduce(s, a), Owner(a)).1.Some?)
  {
  }

  /** Applies actions in dispatch order. */
  function ReduceAll(s: CountriesState, actions: seq<Action>): CountriesState
    decreases |actions|
  {
    if |actions| == 0 then s else ReduceAll(Reduce(s, actions[0]), actions[1..])
  }

  /** No sequence of dispatches from the initial state reaches a slice that is loading and
      failed at once. */
  lemma {:induction false} ReachableNoLoadingWithError(s: CountriesState, actions: seq<Action>)
    requires NoLoadingWithError(s)
    ensures NoLoadingWithError(ReduceAll(s, actions))
    decreases |actions|
  {
    if |actions| > 0 {
      PreservesNoLoadingWithError(s, actions[0]);
      ReachableNoLoadingWithError(Reduce(s, actions[0]), actions[1..]);
    }
  }

  lemma InitialNoLoadingWithError()
    ensures NoLoadingWithError(InitialCountriesState)
  {
  }

  /** Dispatching the same action twice in a row has the effect of dispatching it once:
      every handler overwrites the fields it touches with values that do not depend on
      them, and merging the same filters again changes nothing. */
  lemma Idempotent(s: CountriesState, a: Action)
    ensures Reduce(Reduce(s, a), a) == Reduce(s, a)
  {
    if a.SetFilters? {
      MergeIdempotent(s.countriesList.filters, a.patch);
    }
  }

  lemma MergeIdempotent(f: ListFilters, g: ListFilters)
    ensures MergeFilters(MergeFilters(f, g), g) == MergeFilters(f, g)
  {
  }

  lemma MergeAssociative(f: ListFilters, g: ListFilters, h: ListFilters)
    ensures MergeFilters(MergeFilters(f, g), h) == MergeFilters(f, MergeFilters(g, h))
  {
  }

  lemma MergeWithNothing(f: ListFilters)
    ensures MergeFilters(f, NoListFilters) == f
    ensures MergeFilters(NoListFilters, f) == f
  {
  }

  /** Two filter updates in a row amount to one update with the later keys winning. */
  lemma SetFiltersCompose(s: CountriesState, f: ListFilters, g: ListFilters)
    ensures Reduce(Reduce(s, SetFilters(f)), SetFilters(g)) == Reduce(s, SetFilters(MergeFilters(f, g)))
  {
    MergeAssociative(s.countriesList.filters, f, g);
  }

  /** Payloads a well-behaved caller sends: non-negative pages, positive sizes, and
      envelopes whose metadata is in range. */
  predicate ValidPayload(a: Action) {
    match a
    case LoadCountriesSuccess(p) => ValidEnvelope(p)
    case SetCurrentPage(page) => page >= 0
    case SetPageSize(size) => size > 0
    case InitializePagination(page, size) => page >= 0 && size > 0
    case LoadCountryStatsSuccess(p) => ValidEnvelope(p)
    case SetCountryStatsPage(page) => page >= 0
    case SetCountryStatsPageSize(size) => size > 0
    case _ => true
  }

  predicate ValidEnvelope<T>(p: Page<T>) {
    ValidPagination(FromEnvelope(p))
  }

  /** With valid payloads, every paginated slice keeps a non-negative page, a positive size
      and non-negative totals. */
  lemma PreservesWellFormed(s: CountriesState, a: Action)
    requires WellFormed(s) && ValidPayload(a)
    ensures WellFormed(Reduce(s, a))
  {
  }

  /** A successful load with a self-consistent envelope leaves totals consistent with the
      page size, because the reducer copies the envelope's size, not the requested one. */
  lemma SuccessKeepsTotalsConsistent(s: CountriesState, p: Page<CountryDto>, q: Page<CountryStats>)
    requires ConsistentPage(p) && ConsistentPage(q)
    ensures ConsistentTotals(Reduce(s, LoadCountriesSuccess(p)).countriesList.pagination)
    ensures ConsistentTotals(Reduce(s, LoadCountryStatsSuccess(q)).countryStats.pagination)
  {
  }

  /** Changing the page size or the filters always returns the list to its first page,
      whatever page it was on. */
  lemma PageResets(s: CountriesState, size: int, f: ListFilters)
    ensures Reduce(s, SetPageSize(size)).countriesList.pagination.currentPage == 0
    ensures Reduce(s, SetPageSize(size)).countriesList.pagination.pageSize == size
    ensures Reduce(s, SetFilters(f)).countriesList.pagination.currentPage == 0
    ensures Reduce(s, ClearFilters).countriesList.pagination.currentPage == 0
    ensures Reduce(s, SetCountryStatsPageSize(size)).countryStats.pagination.currentPage == 0
    ensures Reduce(s, SetCountryStatsPageSize(size)).countryStats.pagination.pageSize == size
  {
  }

  /** The state of one slice after a transition depends only on that slice before it. */
  lemma Locality(s: CountriesState, t: CountriesState, a: Action)
    requires SliceEq(s, t, Owner(a))
    ensures SliceEq(Reduce(s, a), Reduce(t, a), Owner(a))
  {
  }

  predicate SliceEq(s: CountriesState, t: CountriesState, n: SliceName) {
    match n
    case List => s.countriesList == t.countriesList
    case Languages => s.countryLanguages == t.countryLanguages
    case Stats => s.countryStats == t.countryStats
    case Management => s.managementInfo == t.managementInfo
    case Overview => s.countryStatsOverview == t.countryStatsOverview
  }

  lemma SlicesDetermineState(s: CountriesState, t: CountriesState)
    requires forall n: SliceName :: SliceEq(s, t, n)
    ensures s == t
  {
    assert SliceEq(s, t, List) && SliceEq(s, t, Languages) && SliceEq(s, t, Stats);
    assert SliceEq(s, t, Management) && SliceEq(s, t, Overview);
  }

  lemma AgreeOutsideSlice(s: CountriesState, t: CountriesState, except: SliceName, n: SliceName)
    requires AgreeOutside(s, t, except) && n != except
    ensures SliceEq(s, t, n)
  {
  }

  lemma SliceEqTrans(s: CountriesState, t: CountriesState, u: CountriesState, n: SliceName)
    requires SliceEq(s, t, n) && SliceEq(t, u, n)
    ensures SliceEq(s, u, n)
  {
  }

  /** Actions about different slices can be applied in either order. */
  lemma Commute(s: CountriesState, a: Action, b: Action)
    requires Owner(a) != Owner(b)
    ensures Reduce(Reduce(s, a), b) == Reduce(Reduce(s, b), a)
  {
    var sa, sb := Reduce(s, a), Reduce(s, b);
    var u, v := Reduce(sa, b), Reduce(sb, a);
    SliceIsolation(s, a);
    SliceIsolation(s, b);
    SliceIsolation(sa, b);
    SliceIsolation(sb, a);
    forall n: SliceName
      ensures SliceEq(u, v, n)
    {
      if n == Owner(a) {
        AgreeOutsideSlice(s, sb, Owner(b), n);
        Locality(s, sb, a);
        AgreeOutsideSlice(sa, u, Owner(b), n);
        SliceEqTrans(u, sa, v, n);
      } else if n == Owner(b) {
        AgreeOutsideSlice(s, sa, Owner(a), n);
        Locality(s, sa, b);
        AgreeOutsideSlice(sb, v, Owner(a), n);
        SliceEqTrans(u, sb, v, n);
      } else {
        AgreeOutsideSlice(s, sa, Owner(a), n);
        AgreeOutsideSlice(sa, u, Owner(b), n);
        AgreeOutsideSlice(s, sb, Owner(b), n);
        AgreeOutsideSlice(sb, v, Owner(a), n);
      }
    }
    SlicesDetermineState(u, v);
  }

  /** The order in which responses arrive decides the outcome: a response for an older
      request that arrives last overwrites a newer one. */
  lemma LastArrivalWins(s: CountriesState, newer: Page<CountryDto>, older: Page<CountryDto>)
    ensures Reduce(Reduce(s, LoadCountriesSuccess(newer)), LoadCountriesSuccess(older)).countriesList.data
         == older.content
    ensures Reduce(Reduce(s, LoadCountriesSuccess(newer)), LoadCountriesSuccess(older)).countriesList.pagination
         == FromEnvelope(older)
  {
  }
}
