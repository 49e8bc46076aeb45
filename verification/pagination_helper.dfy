/** The pagination helper service: projections over whatever view model its selector yields,
    numbering the rows of the current page from the first row of that page. */
module PaginationHelper {
  import opened Wrappers
  import P = PaginationComponent
  import Selectors

  /** The two fields the helper reads from an untyped view model; either may be missing. */
  datatype HelperView<T> = HelperView(countries: Option<seq<T>>, paginationConfig: Option<P.PaginationConfig>)

  /** A row with its 1-based position in the whole result set. */
  datatype Indexed<T> = Indexed(item: T, globalIndex: int)

  /** The 1-based position of the `idx`-th row of page `currentPage`. */
  function GlobalIndex(idx: int, currentPage: int, pageSize: int): int {
    currentPage * pageSize + idx + 1
  }

  function PaginationConfigOf<T>(viewModel: Option<HelperView<T>>): (r: Option<P.PaginationConfig>)
    ensures r.Some? <==> viewModel.Some? && viewModel.value.paginationConfig.Some?
    ensures r.Some? ==> r.value == viewModel.value.paginationConfig.value
  {
    if viewModel.Some? then viewModel.value.paginationConfig else None
  }

  /** The current page's rows, each tagged with its global position; nothing when either the
      rows or the pagination configuration is missing. */
  function ItemsWithIndex<T>(viewModel: Option<HelperView<T>>): (r: seq<Indexed<T>>)
    ensures (|| viewModel.None? || viewModel.value.countries.None?
             || viewModel.value.paginationConfig.None?) ==> r == []
    ensures viewModel.Some? && viewModel.value.countries.Some? && viewModel.value.paginationConfig.Some?
            ==> |r| == |viewModel.value.countries.value|
    ensures forall i :: 0 <= i < |r| ==>
              && r[i].item == viewModel.value.countries.value[i]
              && r[i].globalIndex == GlobalIndex(i, viewModel.value.paginationConfig.value.currentPage,
                                                 viewModel.value.paginationConfig.value.pageSize)
  {
    if viewModel.None? || viewModel.value.countries.None? || viewModel.value.paginationConfig.None? then []
    else
      var rows := viewModel.value.countries.value;
      var config := viewModel.value.paginationConfig.value;
      var start := config.pageSize * config.currentPage;
      seq(|rows|, i requires 0 <= i < |rows| => Indexed(rows[i], start + i + 1))
  }

  function TotalCount<T>(viewModel: Option<HelperView<T>>): (n: int)
    ensures PaginationConfigOf(viewModel).Some? ==> n == PaginationConfigOf(viewModel).value.totalElements
    ensures PaginationConfigOf(viewModel).None? ==> n == 0
  {
    match PaginationConfigOf(viewModel)
    case Some(config) => config.totalElements
    case None => 0
  }

  /** The number of rows before the current page (0 without a configuration). */
  function CurrentPageStartIndex<T>(viewModel: Option<HelperView<T>>): (n: int)
    ensures PaginationConfigOf(viewModel).None? ==> n == 0
    ensures PaginationConfigOf(viewModel).Some? ==>
      n + 1 == GlobalIndex(0, PaginationConfigOf(viewModel).value.currentPage,
                           PaginationConfigOf(viewModel).value.pageSize)
  {
    match PaginationConfigOf(viewModel)
    case Some(config) => config.pageSize * config.currentPage
    case None => 0
  }

  /** How a typed list view model looks to the helper: it has a pagination configuration but
      keeps its rows under `items`, not `countries`. */
  function AsHelperView<T>(vm: Selectors.ListViewModel<T>): (h: HelperView<T>)
    ensures h.countries.None? && h.paginationConfig == Some(vm.paginationConfig)
  {
    HelperView(None, Some(vm.paginationConfig))
  }

  /** Pointed at any of the typed list view models, the helper numbers no rows at all while
      still reporting the configuration and the total. */
  lemma TypedViewModelsYieldNoRows<T>(vm: Selectors.ListViewModel<T>)
    ensures ItemsWithIndex(Some(AsHelperView(vm))) == []
    ensures TotalCount(Some(AsHelperView(vm))) == vm.paginationConfig.totalElements
    ensures PaginationConfigOf(Some(AsHelperView(vm))) == Some(vm.paginationConfig)
  {
  }

  // ---------------------------------------------------------------- global numbering

  /** Numbers start at 1 on the first row of the first page. */
  lemma GlobalIndexPositive(idx: int, currentPage: int, pageSize: int)
    requires idx >= 0 && currentPage >= 0 && pageSize >= 0
    ensures GlobalIndex(idx, currentPage, pageSize) >= 1
    ensures GlobalIndex(0, 0, pageSize) == 1
  {
  }

  /** Within a page numbers rise by one per row, and the first row of a page continues
      directly after the last row of the page before it. */
  lemma GlobalIndexContiguous(idx: int, currentPage: int, pageSize: int)
    requires pageSize > 0
    ensures GlobalIndex(idx + 1, currentPage, pageSize) == GlobalIndex(idx, currentPage, pageSize) + 1
    ensures GlobalIndex(0, currentPage + 1, pageSize) == GlobalIndex(pageSize - 1, currentPage, pageSize) + 1
  {
  }

  /** The page and the row within it that hold the `n`-th row overall. */
  function Locate(n: int, pageSize: int): (pos: (int, int))
    requires n >= 1 && pageSize > 0
    ensures pos.0 >= 0 && 0 <= pos.1 < pageSize
  {
    ((n - 1) / pageSize, (n - 1) % pageSize)
  }

  lemma MulAtLeast(d: int, pageSize: int)
    requires d >= 1 && pageSize > 0
    ensures d * pageSize >= pageSize
  {
    assert d * pageSize == (d - 1) * pageSize + pageSize;
  }

  /** Euclidean division recovers the quotient and remainder it was built from. */
  lemma DivUnique(n: int, pageSize: int, page: int, idx: int)
    requires pageSize > 0 && 0 <= idx < pageSize && n == page * pageSize + idx
    ensures n / pageSize == page && n % pageSize == idx
  {
    var q, r := n / pageSize, n % pageSize;
    assert (page - q) * pageSize == r - idx by {
      assert n == q * pageSize + r;
      assert (page - q) * pageSize == page * pageSize - q * pageSize;
    }
    if page > q {
      MulAtLeast(page - q, pageSize);
    } else if page < q {
      MulAtLeast(q - page, pageSize);
    }
  }

  /** Numbering is a bijection between (page, row-within-page) positions and the positive
      integers: every row number is reached by exactly one position. */
  lemma {:induction false} GlobalIndexBijection(idx: int, currentPage: int, pageSize: int, n: int)
    requires pageSize > 0 && n >= 1
    requires currentPage >= 0 && 0 <= idx < pageSize
    ensures GlobalIndex(Locate(n, pageSize).1, Locate(n, pageSize).0, pageSize) == n
    ensures Locate(GlobalIndex(idx, currentPage, pageSize), pageSize) == (currentPage, idx)
  {
    DivUnique(GlobalIndex(idx, currentPage, pageSize) - 1, pageSize, currentPage, idx);
  }

  /** The numbers of a page's rows run from the control's first item to its last. */
  lemma GlobalIndexMatchesCaption(config: P.PaginationConfig, idx: int, rows: int)
    requires rows == P.EndItem(config) - P.StartItem(config) + 1
    requires 0 <= idx < rows
    ensures GlobalIndex(0, config.currentPage, config.pageSize) == P.StartItem(config)
    ensures P.StartItem(config) <= GlobalIndex(idx, config.currentPage, config.pageSize) <= P.EndItem(config)
    ensures GlobalIndex(rows - 1, config.currentPage, config.pageSize) == P.EndItem(config)
  {
  }
}
