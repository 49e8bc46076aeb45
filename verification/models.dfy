/** Record shapes exchanged with the backend: the countries, languages and statistics rows,
    the Spring-style page envelope, and the filter objects the screens build.
    Numeric fields that are only displayed are `real`; numbers the core computes with
    (pages, sizes, counts, years, identifiers) are `int`. */
module CountryModels {
  import opened Wrappers

  datatype CountryDto = CountryDto(
    id: Option<int>,
    name: string,
    area: real,
    countryCode2: string,
    globalIndex: Option<int>)

  datatype LanguageDto = LanguageDto(
    countryId: Option<int>,
    languageId: Option<int>,
    languageName: string,
    countryName: string,
    countryCode3: string,
    official: bool)

  datatype CountryStats = CountryStats(
    countryName: string,
    countryCode2: string,
    area: real,
    year: int,
    population: real,
    gdp: real,
    gdpPerPopulation: real)

  /** One row of the statistics overview; only the columns the overview query filters on. */
  datatype CountryStatsOverviewDto = CountryStatsOverviewDto(
    continentName: string,
    regionName: string,
    countryName: string,
    year: int)

  datatype RegionDto = RegionDto(id: int, name: string)

  datatype YearRange = YearRange(minYear: int, maxYear: int)

  datatype Pageable = Pageable(offset: int, pageSize: int, pageNumber: int)

  /** The page envelope the backend returns for every paginated resource. */
  datatype Page<T> = Page(
    content: seq<T>,
    pageable: Pageable,
    totalPages: int,
    totalElements: int)

  /** An envelope whose metadata agrees with itself: a positive page size, non-negative
      counters, and as many pages as are needed to hold every element. */
  predicate ConsistentPage<T>(p: Page<T>) {
    && p.pageable.pageSize > 0
    && p.pageable.pageNumber >= 0
    && p.totalElements >= 0
    && (p.totalPages - 1) * p.pageable.pageSize < p.totalElements <= p.totalPages * p.pageable.pageSize
  }

  /** The filter object of the countries list. */
  datatype ListFilters = ListFilters(
    region: Slot<string>,
    searchQuery: Slot<string>,
    yearFrom: Slot<int>,
    yearTo: Slot<int>)

  /** `{}` */
  const NoListFilters := ListFilters(Absent, Absent, Absent, Absent)

  datatype Direction = Asc | Desc

  /** The filter object of the statistics overview. */
  datatype OverviewFilters = OverviewFilters(
    regionId: Option<int>,
    yearFrom: Option<int>,
    yearTo: Option<int>,
    continentName: Option<string>,
    regionName: Option<string>,
    countryName: Option<string>,
    year: Option<string>,
    sortBy: Option<string>,
    direction: Option<Direction>)

  const NoOverviewFilters := OverviewFilters(None, None, None, None, None, None, None, None, None)
}
