/** The requests the nations service issues: an endpoint path under the configured base URL
    and the ordered query parameters. The HTTP client itself is not modelled. */
module NationsService {
  import opened Wrappers
  import opened CountryModels
  import opened Decimal

  /** The query keys the service sets. */
  datatype QueryKey =
    | PageKey | SizeKey
    | RegionKey | SearchKey | YearFromKey | YearToKey
    | RegionIdKey | ContinentNameKey | RegionNameKey | CountryNameKey | YearKey | SortByKey | DirectionKey

  /** The name a key carries on the wire. */
  function Name(k: QueryKey): string {
    match k
    case PageKey => "page"
    case SizeKey => "size"
    case RegionKey => "region"
    case SearchKey => "search"
    case YearFromKey => "yearFrom"
    case YearToKey => "yearTo"
    case RegionIdKey => "regionId"
    case ContinentNameKey => "continentName"
    case RegionNameKey => "regionName"
    case CountryNameKey => "countryName"
    case YearKey => "year"
    case SortByKey => "sortBy"
    case DirectionKey => "direction"
  }

  /** How a server reads a key name. */
  function KeyNamed(name: string): (k: Option<QueryKey>) {
    if name == "page" then Some(PageKey)
    else if name == "size" then Some(SizeKey)
    else if name == "region" then Some(RegionKey)
    else if name == "search" then Some(SearchKey)
    else if name == "yearFrom" then Some(YearFromKey)
    else if name == "yearTo" then Some(YearToKey)
    else if name == "regionId" then Some(RegionIdKey)
    else if name == "continentName" then Some(ContinentNameKey)
    else if name == "regionName" then Some(RegionNameKey)
    else if name == "countryName" then Some(CountryNameKey)
    else if name == "year" then Some(YearKey)
    else if name == "sortBy" then Some(SortByKey)
    else if name == "direction" then Some(DirectionKey)
    else None
  }

  /** Every key's name reads back as that key, so no two keys share a name on the wire. */
  lemma NameDecodes(k: QueryKey)
    ensures KeyNamed(Name(k)) == Some(k)
  {
  }

  lemma NamesDistinct(k: QueryKey, l: QueryKey)
    ensures Name(k) == Name(l) ==> k == l
  {
    NameDecodes(k);
    NameDecodes(l);
  }

  // ---------------------------------------------------------------- HttpParams

  /** `HttpParams`: the value of each key, and the keys in the order they were first set,
      which is the order of the query string. */
  datatype Params = Params(values: map<QueryKey, string>, order: seq<QueryKey>)

  const NoParams := Params(map[], [])

  datatype Request = Request(path: string, params: Params)

  function Keys(p: Params): seq<QueryKey> {
    p.order
  }

  /** The order lists exactly the keys that carry a value, each once. */
  predicate Valid(p: Params) {
    && (forall k :: k in p.values <==> k in p.order)
    && (forall i, j :: 0 <= i < j < |p.order| ==> p.order[i] != p.order[j])
  }

  /** The value a server reads for `key`. */
  function Lookup(p: Params, key: QueryKey): Option<string> {
    if key in p.values then Some(p.values[key]) else None
  }

  /** `HttpParams.set`: the key now reads `value` and no other key changes. */
  function SetParam(p: Params, key: QueryKey, value: string): (r: Params)
    ensures forall k :: Lookup(r, k) == if k == key then Some(value) else Lookup(p, k)
    ensures Keys(p) <= Keys(r)
  {
    Params(p.values[key := value], if key in p.values then p.order else p.order + [key])
  }

  /** On a well-formed query, `set` keeps it well formed: a key already present keeps its
      position, a new one goes last. */
  lemma SetParamValid(p: Params, key: QueryKey, value: string)
    requires Valid(p)
    ensures Valid(SetParam(p, key, value))
    ensures Keys(SetParam(p, key, value)) == if Lookup(p, key).Some? then Keys(p) else Keys(p) + [key]
  {
    var r := SetParam(p, key, value);
    if key !in p.values {
      forall i, j | 0 <= i < j < |r.order| ensures r.order[i] != r.order[j] {
        if j == |p.order| {
          assert r.order[i] == p.order[i];
        }
      }
    }
  }

  /** Every query starts with `page` then `size`, and nothing else. */
  function PageAndSize(page: int, size: int): (r: Params)
    ensures Keys(r) == [PageKey, SizeKey]
    ensures Lookup(r, PageKey) == Some(IntToString(page))
    ensures Lookup(r, SizeKey) == Some(IntToString(size))
    ensures forall k :: k != PageKey && k != SizeKey ==> Lookup(r, k) == None
  {
    SetParam(SetParam(NoParams, PageKey, IntToString(page)), SizeKey, IntToString(size))
  }

  lemma PageAndSizeValid(page: int, size: int)
    ensures Valid(PageAndSize(page, size))
  {
    SetParamValid(NoParams, PageKey, IntToString(page));
    SetParamValid(SetParam(NoParams, PageKey, IntToString(page)), SizeKey, IntToString(size));
  }

  /** A further key set after `page` and `size` goes third. */
  lemma PageAndSizeThenSet(page: int, size: int, key: QueryKey, value: string)
    requires key != PageKey && key != SizeKey
    ensures Keys(SetParam(PageAndSize(page, size), key, value)) == [PageKey, SizeKey, key]
  {
    PageAndSizeValid(page, size);
    SetParamValid(PageAndSize(page, size), key, value);
  }

  // ---------------------------------------------------------------- guarded sets

  /** `if (value)` for a string and for a number. */
  predicate TruthyString(v: Option<string>) {
    v.Some? && v.value != ""
  }

  predicate TruthyNumber(v: Option<int>) {
    v.Some? && v.value != 0
  }

  /** What a guarded `set` sends for a string filter: the value when it is truthy. */
  function KeepString(v: Option<string>): (r: Option<string>)
    ensures r.Some? <==> TruthyString(v)
    ensures r.Some? ==> r == v
  {
    if TruthyString(v) then v else None
  }

  function KeepNumber(v: Option<int>): (r: Option<int>)
    ensures r.Some? <==> TruthyNumber(v)
    ensures r.Some? ==> r == v
  {
    if TruthyNumber(v) then v else None
  }

  /** What a guarded `set` sends for a number filter: its decimal text when it is truthy. */
  function NumberText(v: Option<int>): (r: Option<string>)
    ensures r.Some? <==> TruthyNumber(v)
    ensures r.Some? ==> ParseInt(r.value) == v
  {
    if TruthyNumber(v) then IntRoundTrip(v.value); Some(IntToString(v.value)) else None
  }

  /** One guarded `set`: the key, and the text to send if its guard passed. */
  type Entry = (QueryKey, Option<string>)

  /** The guarded `set`s applied one after the other. Each adds at most one key. */
  function SetAll(p: Params, es: seq<Entry>): (r: Params)
    ensures |Keys(p)| <= |Keys(r)| <= |Keys(p)| + |es|
    decreases |es|
  {
    if |es| == 0 then p
    else SetAll(if es[0].1.Some? then SetParam(p, es[0].0, es[0].1.value) else p, es[1..])
  }

  /** The text the last passed guard for `k` sent, if any. */
  function Sent(es: seq<Entry>, k: QueryKey): Option<string>
    decreases |es|
  {
    if |es| == 0 then None
    else
      var later := Sent(es[1..], k);
      if later.Some? then later else if es[0].0 == k then es[0].1 else None
  }

  /** After the guarded `set`s, a key reads what was last sent for it, or what the query held
      before. */
  lemma {:induction false} SetAllLookup(p: Params, es: seq<Entry>, k: QueryKey)
    ensures Lookup(SetAll(p, es), k) == if Sent(es, k).Some? then Sent(es, k) else Lookup(p, k)
    decreases |es|
  {
    if |es| > 0 {
      var q := if es[0].1.Some? then SetParam(p, es[0].0, es[0].1.value) else p;
      SetAllLookup(q, es[1..], k);
    }
  }

  /** Guarded `set`s only append keys. */
  lemma {:induction false} SetAllKeys(p: Params, es: seq<Entry>)
    ensures Keys(p) <= Keys(SetAll(p, es))
    decreases |es|
  {
    if |es| > 0 {
      var q := if es[0].1.Some? then SetParam(p, es[0].0, es[0].1.value) else p;
      SetAllKeys(q, es[1..]);
    }
  }

  lemma {:induction false} SetAllValid(p: Params, es: seq<Entry>)
    requires Valid(p)
    ensures Valid(SetAll(p, es))
    decreases |es|
  {
    if |es| > 0 {
      var q := if es[0].1.Some? then SetParam(p, es[0].0, es[0].1.value) else p;
      if es[0].1.Some? {
        SetParamValid(p, es[0].0, es[0].1.value);
      }
      SetAllValid(q, es[1..]);
    }
  }

  /** Guarded `set`s whose guards all failed leave the query as it was. */
  lemma {:induction false} SetAllUnsent(p: Params, es: seq<Entry>)
    requires forall i :: 0 <= i < |es| ==> es[i].1.None?
    ensures SetAll(p, es) == p
    decreases |es|
  {
    if |es| > 0 {
      assert es[0].1.None?;
      forall i | 0 <= i < |es[1..]| ensures es[1..][i].1.None? {
        assert es[1..][i] == es[i + 1];
      }
      SetAllUnsent(p, es[1..]);
    }
  }

  /** Guarded `set`s of which only the first guard passed amount to that one `set`. */
  lemma SetAllFirstOnly(p: Params, es: seq<Entry>)
    requires |es| > 0 && es[0].1.Some?
    requires forall i :: 1 <= i < |es| ==> es[i].1.None?
    ensures SetAll(p, es) == SetParam(p, es[0].0, es[0].1.value)
  {
    var rest := es[1..];
    forall i | 0 <= i < |rest| ensures rest[i].1.None? {
      assert rest[i] == es[i + 1];
    }
    SetAllUnsent(SetParam(p, es[0].0, es[0].1.value), rest);
  }

  /** With pairwise different keys, what was sent for the key at position `i` is what that
      entry carries. */
  lemma {:induction false} SentAt(es: seq<Entry>, i: nat)
    requires i < |es|
    requires forall j :: 0 <= j < |es| && j != i ==> es[j].0 != es[i].0
    ensures Sent(es, es[i].0) == es[i].1
    decreases |es|
  {
    var k := es[i].0;
    var rest := es[1..];
    if i == 0 {
      SentNone(rest, k);
    } else {
      assert rest[i - 1] == es[i];
      forall j | 0 <= j < |rest| && j != i - 1 ensures rest[j].0 != rest[i - 1].0 {
        assert rest[j] == es[j + 1];
      }
      SentAt(rest, i - 1);
    }
  }

  lemma {:induction false} SentNone(es: seq<Entry>, k: QueryKey)
    requires forall j :: 0 <= j < |es| ==> es[j].0 != k
    ensures Sent(es, k) == None
    decreases |es|
  {
    if |es| > 0 {
      var rest := es[1..];
      forall j | 0 <= j < |rest| ensures rest[j].0 != k {
        assert rest[j] == es[j + 1];
      }
      SentNone(rest, k);
    }
  }

  // ---------------------------------------------------------------- requests

  predicate IsListFilterKey(k: QueryKey) {
    k == RegionKey || k == SearchKey || k == YearFromKey || k == YearToKey
  }

  /** The guarded `set`s of `getCountries`, in source order; `searchQuery` travels as
      `search`. */
  function ListFilterEntries(f: ListFilters): (es: seq<Entry>)
    ensures |es| == 4
    ensures forall i :: 0 <= i < |es| ==> IsListFilterKey(es[i].0)
  {
    [(RegionKey, KeepString(f.region.Read())),
     (SearchKey, KeepString(f.searchQuery.Read())),
     (YearFromKey, NumberText(f.yearFrom.Read())),
     (YearToKey, NumberText(f.yearTo.Read()))]
  }

  /** The filter part of the `getCountries` query, added after what the query already holds. */
  function ListFilterParams(p: Params, f: ListFilters): Params {
    SetAll(p, ListFilterEntries(f))
  }

  /** `getCountries`: the page defaults to 0; the size has no default; the filters are
      added only when a filter object is given. */
  function GetCountries(baseUrl: string, page: Option<int>, size: int, filters: Option<ListFilters>): (r: Request)
    ensures filters.None? ==> r.params == PageAndSize(page.GetOr(0), size)
  {
    var params := PageAndSize(page.GetOr(0), size);
    Request(baseUrl + "/countries", if filters.None? then params else ListFilterParams(params, filters.value))
  }

  function GetCountryLanguages(baseUrl: string, countryId: int): (r: Request)
    ensures r.params == NoParams
  {
    Request(baseUrl + "/languages/country/" + IntToString(countryId), NoParams)
  }

  /** `getMaxGdpPerPopulationStats`: the page defaults to 0 and the size to 20. */
  function GetMaxGdpPerPopulationStats(baseUrl: string, page: Option<int>, size: Option<int>): (r: Request)
    ensures r.params == PageAndSize(page.GetOr(0), size.GetOr(20))
  {
    Request(baseUrl + "/countries/stats/max-gdp-per-population", PageAndSize(page.GetOr(0), size.GetOr(20)))
  }

  function DirectionName(d: Direction): string {
    match d
    case Asc => "asc"
    case Desc => "desc"
  }

  function DirectionValue(d: Option<Direction>): Option<string> {
    if d.Some? then Some(DirectionName(d.value)) else None
  }

  predicate IsOverviewKey(k: QueryKey) {
    || k == RegionIdKey || k == YearFromKey || k == YearToKey
    || k == ContinentNameKey || k == RegionNameKey || k == CountryNameKey
    || k == YearKey || k == SortByKey || k == DirectionKey
  }

  /** The guarded `set`s of `getCountryStatsOverview`, in source order: the numbers first. */
  function OverviewFilterEntries(f: OverviewFilters): (es: seq<Entry>)
    ensures |es| == 9
    ensures forall i :: 0 <= i < |es| ==> IsOverviewKey(es[i].0)
  {
    [(RegionIdKey, NumberText(f.regionId)),
     (YearFromKey, NumberText(f.yearFrom)),
     (YearToKey, NumberText(f.yearTo)),
     (ContinentNameKey, KeepString(f.continentName)),
     (RegionNameKey, KeepString(f.regionName)),
     (CountryNameKey, KeepString(f.countryName)),
     (YearKey, KeepString(f.year)),
     (SortByKey, KeepString(f.sortBy)),
     (DirectionKey, KeepString(DirectionValue(f.direction)))]
  }

  function OverviewFilterParams(p: Params, f: OverviewFilters): Params {
    SetAll(p, OverviewFilterEntries(f))
  }

  /** `getCountryStatsOverview`: the page defaults to 0 and the size to 10. */
  function GetCountryStatsOverview(baseUrl: string, page: Option<int>, size: Option<int>, filters: Option<OverviewFilters>): (r: Request)
    ensures filters.None? ==> r.params == PageAndSize(page.GetOr(0), size.GetOr(10))
  {
    var params := PageAndSize(page.GetOr(0), size.GetOr(10));
    Request(baseUrl + "/country-stats-overview",
      if filters.None? then params else OverviewFilterParams(params, filters.value))
  }

  function GetRegions(baseUrl: string): (r: Request)
    ensures r.params == NoParams
  {
    Request(baseUrl + "/country-stats-overview/regions", NoParams)
  }

  function GetYearRange(baseUrl: string): (r: Request)
    ensures r.params == NoParams
  {
    Request(baseUrl + "/country-stats-overview/year-range", NoParams)
  }

  /** The overview, regions and year-range requests address three different resources on
      the same server. */
  lemma OverviewPathsDistinct(baseUrl: string, page: Option<int>, size: Option<int>, filters: Option<OverviewFilters>)
    ensures GetRegions(baseUrl).path != GetYearRange(baseUrl).path
    ensures GetRegions(baseUrl).path != GetCountryStatsOverview(baseUrl, page, size, filters).path
    ensures GetYearRange(baseUrl).path != GetCountryStatsOverview(baseUrl, page, size, filters).path
    ensures GetRegions(baseUrl).path[..|baseUrl|] == baseUrl
    ensures GetYearRange(baseUrl).path[..|baseUrl|] == baseUrl
  {
  }

  // ---------------------------------------------------------------- decoding

  /** How the backend reads a number parameter back. */
  function ReadNumber(params: Params, key: QueryKey): Option<int> {
    var v := Lookup(params, key);
    if v.Some? then ParseInt(v.value) else None
  }

  /** What a filter object means to the backend: each key that survives the truthiness test,
      with its value. */
  datatype EffectiveListFilters = EffectiveListFilters(
    region: Option<string>, search: Option<string>, yearFrom: Option<int>, yearTo: Option<int>)

  function Effective(filters: Option<ListFilters>): EffectiveListFilters {
    if filters.None? then EffectiveListFilters(None, None, None, None)
    else
      var f := filters.value;
      EffectiveListFilters(
        KeepString(f.region.Read()), KeepString(f.searchQuery.Read()),
        KeepNumber(f.yearFrom.Read()), KeepNumber(f.yearTo.Read()))
  }

  function DecodeListFilters(params: Params): EffectiveListFilters {
    EffectiveListFilters(
      Lookup(params, RegionKey), Lookup(params, SearchKey),
      ReadNumber(params, YearFromKey), ReadNumber(params, YearToKey))
  }

  /** A number filter sent through its guard reads back as the number, or as absent. */
  lemma ReadNumberText(params: Params, key: QueryKey, v: Option<int>)
    requires Lookup(params, key) == NumberText(v)
    ensures ReadNumber(params, key) == KeepNumber(v)
  {
  }

  /** A filter entry lands on its own key: what it sent, or what the query held before. */
  lemma EntryLands(p: Params, es: seq<Entry>, i: nat)
    requires i < |es|
    requires forall j :: 0 <= j < |es| && j != i ==> es[j].0 != es[i].0
    requires Lookup(p, es[i].0) == None
    ensures Lookup(SetAll(p, es), es[i].0) == es[i].1
  {
    SetAllLookup(p, es, es[i].0);
    SentAt(es, i);
  }

  /** Decoding the filter part recovers the truthy filters, given a prefix that carries no
      filter key. */
  lemma ListFilterParamsDecode(params: Params, f: ListFilters)
    requires forall k :: IsListFilterKey(k) ==> Lookup(params, k) == None
    ensures DecodeListFilters(ListFilterParams(params, f)) == Effective(Some(f))
  {
    var es := ListFilterEntries(f);
    var r := ListFilterParams(params, f);
    EntryLands(params, es, 0);
    EntryLands(params, es, 1);
    EntryLands(params, es, 2);
    EntryLands(params, es, 3);
    ReadNumberText(r, YearFromKey, f.yearFrom.Read());
    ReadNumberText(r, YearToKey, f.yearTo.Read());
  }

  /** A filter object whose every key is falsy adds nothing: the query is the one built
      without filters. */
  lemma FalsyListFiltersSendNothing(p: Params, f: ListFilters)
    requires !TruthyString(f.region.Read()) && !TruthyString(f.searchQuery.Read())
    requires !TruthyNumber(f.yearFrom.Read()) && !TruthyNumber(f.yearTo.Read())
    ensures ListFilterParams(p, f) == p
  {
    SetAllUnsent(p, ListFilterEntries(f));
  }

  /** `getCountries` with a filter object whose every key is falsy sends the same request as
      without one. */
  lemma FalsyListFiltersRequest(baseUrl: string, page: Option<int>, size: int, f: ListFilters)
    requires !TruthyString(f.region.Read()) && !TruthyString(f.searchQuery.Read())
    requires !TruthyNumber(f.yearFrom.Read()) && !TruthyNumber(f.yearTo.Read())
    ensures GetCountries(baseUrl, page, size, Some(f)) == GetCountries(baseUrl, page, size, None)
  {
    FalsyListFiltersSendNothing(PageAndSize(page.GetOr(0), size), f);
  }

  /** Filters never touch a key outside their own set. */
  lemma ListFiltersKeepOthers(params: Params, f: ListFilters, k: QueryKey)
    requires !IsListFilterKey(k)
    ensures Lookup(ListFilterParams(params, f), k) == Lookup(params, k)
  {
    var es := ListFilterEntries(f);
    SetAllLookup(params, es, k);
    SentNone(es, k);
  }

  /** The server recovers the page, the size and exactly the truthy filters from the query
      of `getCountries`: `""` and `0` are dropped, `searchQuery` travels as `search`. */
  lemma CountriesQueryRoundTrip(baseUrl: string, page: Option<int>, size: int, filters: Option<ListFilters>)
    ensures ReadNumber(GetCountries(baseUrl, page, size, filters).params, PageKey) == Some(page.GetOr(0))
    ensures ReadNumber(GetCountries(baseUrl, page, size, filters).params, SizeKey) == Some(size)
    ensures DecodeListFilters(GetCountries(baseUrl, page, size, filters).params) == Effective(filters)
  {
    var p0 := PageAndSize(page.GetOr(0), size);
    var r := GetCountries(baseUrl, page, size, filters).params;
    if filters.Some? {
      ListFilterParamsDecode(p0, filters.value);
      ListFiltersKeepOthers(p0, filters.value, PageKey);
      ListFiltersKeepOthers(p0, filters.value, SizeKey);
    }
    IntRoundTrip(page.GetOr(0));
    IntRoundTrip(size);
  }

  /** The query of `getCountries` starts with `page` then `size`, names every key once, and
      without filters is exactly those two. */
  lemma CountriesQueryShape(baseUrl: string, page: Option<int>, size: int, filters: Option<ListFilters>)
    ensures Valid(GetCountries(baseUrl, page, size, filters).params)
    ensures |Keys(GetCountries(baseUrl, page, size, filters).params)| >= 2
    ensures Keys(GetCountries(baseUrl, page, size, filters).params)[..2] == [PageKey, SizeKey]
    ensures filters.None? ==> Keys(GetCountries(baseUrl, page, size, filters).params) == [PageKey, SizeKey]
  {
    var p0 := PageAndSize(page.GetOr(0), size);
    PageAndSizeValid(page.GetOr(0), size);
    if filters.Some? {
      SetAllValid(p0, ListFilterEntries(filters.value));
      SetAllKeys(p0, ListFilterEntries(filters.value));
    }
  }

  function ReadDirection(params: Params): Option<Direction> {
    var v := Lookup(params, DirectionKey);
    if v == Some("asc") then Some(Asc) else if v == Some("desc") then Some(Desc) else None
  }

  function DecodeOverviewFilters(params: Params): OverviewFilters {
    OverviewFilters(
      ReadNumber(params, RegionIdKey), ReadNumber(params, YearFromKey), ReadNumber(params, YearToKey),
      Lookup(params, ContinentNameKey), Lookup(params, RegionNameKey),
      Lookup(params, CountryNameKey), Lookup(params, YearKey),
      Lookup(params, SortByKey), ReadDirection(params))
  }

  /** An overview filter object with its falsy values dropped. */
  function EffectiveOverview(filters: Option<OverviewFilters>): OverviewFilters {
    if filters.None? then NoOverviewFilters
    else
      var f := filters.value;
      OverviewFilters(
        KeepNumber(f.regionId), KeepNumber(f.yearFrom), KeepNumber(f.yearTo),
        KeepString(f.continentName), KeepString(f.regionName), KeepString(f.countryName),
        KeepString(f.year), KeepString(f.sortBy), f.direction)
  }

  lemma DirectionRoundTrip(params: Params, d: Option<Direction>)
    requires Lookup(params, DirectionKey) == KeepString(DirectionValue(d))
    ensures ReadDirection(params) == d
  {
    assert "desc"[0] != "asc"[0];
  }

  /** The overview entries name nine different keys. */
  lemma OverviewEntriesDistinct(f: OverviewFilters, i: nat)
    requires i < 9
    ensures forall j :: 0 <= j < 9 && j != i ==> OverviewFilterEntries(f)[j].0 != OverviewFilterEntries(f)[i].0
  {
  }

  lemma OverviewEntryLands(params: Params, f: OverviewFilters, i: nat)
    requires i < 9
    requires forall k :: IsOverviewKey(k) ==> Lookup(params, k) == None
    ensures Lookup(OverviewFilterParams(params, f), OverviewFilterEntries(f)[i].0) == OverviewFilterEntries(f)[i].1
  {
    var es := OverviewFilterEntries(f);
    OverviewEntriesDistinct(f, i);
    EntryLands(params, es, i);
  }

  /** Decoding the overview filter part recovers the truthy filters, given a prefix that
      carries no overview filter key. */
  lemma OverviewFilterParamsDecode(params: Params, f: OverviewFilters)
    requires forall k :: IsOverviewKey(k) ==> Lookup(params, k) == None
    ensures DecodeOverviewFilters(OverviewFilterParams(params, f)) == EffectiveOverview(Some(f))
  {
    var r := OverviewFilterParams(params, f);
    OverviewEntryLands(params, f, 0);
    OverviewEntryLands(params, f, 1);
    OverviewEntryLands(params, f, 2);
    OverviewEntryLands(params, f, 3);
    OverviewEntryLands(params, f, 4);
    OverviewEntryLands(params, f, 5);
    OverviewEntryLands(params, f, 6);
    OverviewEntryLands(params, f, 7);
    OverviewEntryLands(params, f, 8);
    ReadNumberText(r, RegionIdKey, f.regionId);
    ReadNumberText(r, YearFromKey, f.yearFrom);
    ReadNumberText(r, YearToKey, f.yearTo);
    DirectionRoundTrip(r, f.direction);
  }

  lemma OverviewFiltersKeepOthers(params: Params, f: OverviewFilters, k: QueryKey)
    requires !IsOverviewKey(k)
    ensures Lookup(OverviewFilterParams(params, f), k) == Lookup(params, k)
  {
    var es := OverviewFilterEntries(f);
    SetAllLookup(params, es, k);
    SentNone(es, k);
  }

  /** The server recovers the page (default 0), the size (default 10) and exactly the truthy
      overview filters from the query of `getCountryStatsOverview`. */
  lemma OverviewQueryRoundTrip(baseUrl: string, page: Option<int>, size: Option<int>, filters: Option<OverviewFilters>)
    ensures ReadNumber(GetCountryStatsOverview(baseUrl, page, size, filters).params, PageKey) == Some(page.GetOr(0))
    ensures ReadNumber(GetCountryStatsOverview(baseUrl, page, size, filters).params, SizeKey) == Some(size.GetOr(10))
    ensures DecodeOverviewFilters(GetCountryStatsOverview(baseUrl, page, size, filters).params) == EffectiveOverview(filters)
  {
    var p0 := PageAndSize(page.GetOr(0), size.GetOr(10));
    if filters.Some? {
      OverviewFilterParamsDecode(p0, filters.value);
      OverviewFiltersKeepOthers(p0, filters.value, PageKey);
      OverviewFiltersKeepOthers(p0, filters.value, SizeKey);
    }
    IntRoundTrip(page.GetOr(0));
    IntRoundTrip(size.GetOr(10));
  }

  /** The overview query starts with `page` then `size` and names every key once. */
  lemma OverviewQueryShape(baseUrl: string, page: Option<int>, size: Option<int>, filters: Option<OverviewFilters>)
    ensures Valid(GetCountryStatsOverview(baseUrl, page, size, filters).params)
    ensures |Keys(GetCountryStatsOverview(baseUrl, page, size, filters).params)| >= 2
    ensures Keys(GetCountryStatsOverview(baseUrl, page, size, filters).params)[..2] == [PageKey, SizeKey]
  {
    var p0 := PageAndSize(page.GetOr(0), size.GetOr(10));
    PageAndSizeValid(page.GetOr(0), size.GetOr(10));
    if filters.Some? {
      SetAllValid(p0, OverviewFilterEntries(filters.value));
      SetAllKeys(p0, OverviewFilterEntries(filters.value));
    }
  }

  /** The statistics query carries only the page (default 0) and the size (default 20). */
  lemma StatsQuery(baseUrl: string, page: Option<int>, size: Option<int>)
    ensures Keys(GetMaxGdpPerPopulationStats(baseUrl, page, size).params) == [PageKey, SizeKey]
    ensures ReadNumber(GetMaxGdpPerPopulationStats(baseUrl, page, size).params, PageKey) == Some(page.GetOr(0))
    ensures ReadNumber(GetMaxGdpPerPopulationStats(baseUrl, page, size).params, SizeKey) == Some(size.GetOr(20))
  {
    IntRoundTrip(page.GetOr(0));
    IntRoundTrip(size.GetOr(20));
  }

  const LANGUAGES_PREFIX := "/languages/country/"

  /** The languages path is the fixed prefix followed by the country id, which a server can
      read back from it. */
  lemma LanguagesPathCarriesId(baseUrl: string, countryId: int)
    ensures GetCountryLanguages(baseUrl, countryId).path[..|baseUrl| + |LANGUAGES_PREFIX|] == baseUrl + LANGUAGES_PREFIX
    ensures ParseInt(GetCountryLanguages(baseUrl, countryId).path[|baseUrl| + |LANGUAGES_PREFIX|..]) == Some(countryId)
  {
    var path := GetCountryLanguages(baseUrl, countryId).path;
    assert path == (baseUrl + LANGUAGES_PREFIX) + IntToString(countryId);
    assert path[|baseUrl| + |LANGUAGES_PREFIX|..] == IntToString(countryId);
    IntRoundTrip(countryId);
  }
}
