/** The pagination control: which page buttons it shows, its ellipses, its "items X to Y"
    caption, and which page, if any, each click asks for. */
module PaginationComponent {
  import opened Wrappers

  datatype PaginationConfig = PaginationConfig(
    currentPage: int,
    totalPages: int,
    totalElements: int,
    pageSize: int,
    showFirstLast: Option<bool>,
    showPrevNext: Option<bool>,
    maxVisiblePages: Option<int>)

  /** The control's configuration until its input is bound. */
  const DefaultConfig := PaginationConfig(0, 0, 0, 20, Some(true), Some(true), Some(3))

  /** The sizes offered in the page-size selector. */
  const PageSizes: seq<int> := [5, 10, 20, 50, 100]

  /** The window size used when the configuration leaves it out. */
  const DefaultMaxVisiblePages := 3

  function Max(a: int, b: int): int { if a >= b then a else b }
  function Min(a: int, b: int): int { if a <= b then a else b }

  /** The pages `lo, lo + 1, ..., hi - 1` (none when `hi <= lo`). */
  function Range(lo: int, hi: int): (r: seq<int>)
    ensures |r| == Max(hi - lo, 0)
    ensures forall i :: 0 <= i < |r| ==> r[i] == lo + i
    decreases hi - lo
  {
    if hi <= lo then [] else [lo] + Range(lo + 1, hi)
  }

  /** Ascending, without gaps. */
  predicate Consecutive(r: seq<int>) {
    forall i :: 0 <= i < |r| ==> r[i] == r[0] + i
  }

  /** The first and last page of the sliding window when there are more pages than fit. */
  function Window(currentPage: int, totalPages: int, maxVisible: int): (int, int) {
    var half := maxVisible / 2;
    var start := Max(0, currentPage - half);
    var end := Min(totalPages - 1, start + maxVisible - 1);
    var start := if end == totalPages - 1 then Max(0, end - maxVisible + 1) else start;
    var end := if start == 0 then Min(totalPages - 1, start + maxVisible - 1) else end;
    (start, end)
  }

  /** The window holds exactly `maxVisible` pages of the list, around the current page. */
  lemma WindowFits(currentPage: int, totalPages: int, maxVisible: int)
    requires 1 <= maxVisible < totalPages
    ensures var (start, end) := Window(currentPage, totalPages, maxVisible);
            && 0 <= start && end <= totalPages - 1
            && end - start + 1 == maxVisible
            && (0 <= currentPage < totalPages ==> start <= currentPage <= end)
  {
  }

  /** The page buttons the control shows. With no pages there are none; when every page
      fits, all are shown; otherwise a window of exactly `maxVisiblePages` consecutive
      pages that contains the current page whenever that page exists. */
  function VisiblePages(config: PaginationConfig): (r: seq<int>)
    ensures config.totalPages <= 0 ==> r == []
    ensures forall i :: 0 <= i < |r| ==> 0 <= r[i] < config.totalPages
    ensures Consecutive(r)
    ensures 0 < config.totalPages <= config.maxVisiblePages.GetOr(DefaultMaxVisiblePages)
            ==> |r| == config.totalPages && (forall i :: 0 <= i < |r| ==> r[i] == i)
    ensures 1 <= config.maxVisiblePages.GetOr(DefaultMaxVisiblePages) < config.totalPages
            ==> |r| == config.maxVisiblePages.GetOr(DefaultMaxVisiblePages)
    ensures 1 <= config.maxVisiblePages.GetOr(DefaultMaxVisiblePages) < config.totalPages
            && 0 <= config.currentPage < config.totalPages
            ==> config.currentPage in r
  {
    var maxVisible := config.maxVisiblePages.GetOr(DefaultMaxVisiblePages);
    if config.totalPages <= 0 then []
    else if config.totalPages <= maxVisible then Range(0, config.totalPages)
    else
      var (start, end) := Window(config.currentPage, config.totalPages, maxVisible);
      var r := Range(start, end + 1);
      if maxVisible >= 1 then
        WindowFits(config.currentPage, config.totalPages, maxVisible);
        assert 0 <= config.currentPage < config.totalPages ==>
          r[config.currentPage - start] == config.currentPage;
        r
      else r
  }

  /** Worked windows: in the middle the current page is centred, at the end the window is
      pulled back, and short lists show every page. */
  lemma WindowExamples()
    ensures VisiblePages(PaginationConfig(5, 20, 100, 5, None, None, Some(5))) == [3, 4, 5, 6, 7]
    ensures VisiblePages(PaginationConfig(19, 20, 100, 5, None, None, Some(3))) == [17, 18, 19]
    ensures VisiblePages(PaginationConfig(0, 3, 15, 5, None, None, Some(5))) == [0, 1, 2]
    ensures VisiblePages(PaginationConfig(0, 0, 0, 5, None, None, Some(5))) == []
  {
    assert Range(3, 8) == [3, 4, 5, 6, 7];
    assert Range(17, 20) == [17, 18, 19];
    assert Range(0, 3) == [0, 1, 2];
  }

  /** The component's own computation: the two loops that push page numbers, which yield
      exactly the pages `VisiblePages` describes. */
  method ComputeVisiblePages(config: PaginationConfig) returns (pages: seq<int>)
    ensures pages == VisiblePages(config)
  {
    var maxVisible := config.maxVisiblePages.GetOr(DefaultMaxVisiblePages);
    pages := [];
    if config.totalPages <= 0 {
      return;
    }
    var start, end;
    if config.totalPages <= maxVisible {
      start, end := 0, config.totalPages - 1;
    } else {
      start, end := Window(config.currentPage, config.totalPages, maxVisible).0,
                    Window(config.currentPage, config.totalPages, maxVisible).1;
    }
    var i := start;
    while i <= end
      invariant start <= i <= Max(end + 1, start)
      invariant |pages| == i - start
      invariant forall k :: 0 <= k < |pages| ==> pages[k] == start + k
      decreases end - i
    {
      pages := pages + [i];
      i := i + 1;
    }
  }

  /** The ellipsis before the first button appears exactly when buttons are shown but
      neither the first nor the second page is among them. */
  function ShowStartEllipsis(config: PaginationConfig): (shown: bool)
    ensures shown <==>
      |VisiblePages(config)| > 0 && 0 !in VisiblePages(config) && 1 !in VisiblePages(config)
  {
    var pages := VisiblePages(config);
    if |pages| > 0 then
      assert forall x :: x in pages ==> pages[0] <= x;
      pages[0] > 1
    else false
  }

  /** The ellipsis after the last button appears exactly when buttons are shown but neither
      the last nor the second-to-last page is among them. */
  function ShowEndEllipsis(config: PaginationConfig): (shown: bool)
    ensures shown <==>
      |VisiblePages(config)| > 0
      && config.totalPages - 1 !in VisiblePages(config)
      && config.totalPages - 2 !in VisiblePages(config)
  {
    var pages := VisiblePages(config);
    if |pages| > 0 then
      assert pages[|pages| - 1] in pages;
      assert forall x :: x in pages ==> x <= pages[|pages| - 1];
      pages[|pages| - 1] < config.totalPages - 2
    else false
  }

  /** On the first page, where the caption starts at row 1. */
  function IsFirstPage(config: PaginationConfig): (first: bool)
    ensures first <==> config.currentPage == 0
    ensures first ==> StartItem(config) == 1
  {
    config.currentPage == 0
  }

  /** The control's last-page test as written: the current page is `totalPages - 1`. With no
      pages at all that is page -1, so page 0 of an empty list is not the last page. */
  function IsLastPage(config: PaginationConfig): (last: bool)
    ensures last <==> config.currentPage + 1 == config.totalPages
    ensures config.totalPages == 0 ==> (last <==> config.currentPage == -1)
  {
    config.currentPage == config.totalPages - 1
  }

  /** A click on any shown page button other than the current one asks for that page. */
  lemma VisiblePageClicks(config: PaginationConfig, page: int)
    requires page in VisiblePages(config) && page != config.currentPage
    ensures OnPageClick(config, page) == Some(page)
  {
  }

  /** The 1-based number of the first row on the current page: one past the rows of the
      pages before it. */
  function StartItem(config: PaginationConfig): (first: int)
    ensures first - 1 == config.currentPage * config.pageSize
  {
    config.currentPage * config.pageSize + 1
  }

  /** The 1-based number of the last row on the current page: the end of a full page, or
      the total when that comes first. */
  function EndItem(config: PaginationConfig): (last: int)
    ensures last <= (config.currentPage + 1) * config.pageSize && last <= config.totalElements
    ensures last == (config.currentPage + 1) * config.pageSize || last == config.totalElements
  {
    Min((config.currentPage + 1) * config.pageSize, config.totalElements)
  }

  /** On any page that holds rows, the caption's range is non-empty and covers exactly the
      rows of that page: `pageSize` rows, fewer only on the last page. */
  lemma ItemRangeCoversPage(config: PaginationConfig)
    requires config.pageSize > 0 && config.currentPage >= 0
    requires config.currentPage * config.pageSize < config.totalElements
    ensures 1 <= StartItem(config) <= EndItem(config) <= config.totalElements
    ensures EndItem(config) - StartItem(config) + 1 <= config.pageSize
    ensures EndItem(config) - StartItem(config) + 1 == config.pageSize
            || EndItem(config) == config.totalElements
  {
    assert (config.currentPage + 1) * config.pageSize == config.currentPage * config.pageSize + config.pageSize;
  }

  /** A click on a page button asks for that page only when it is another, existing page. */
  function OnPageClick(config: PaginationConfig, page: int): (emitted: Option<int>)
    ensures emitted.Some? ==> emitted.value == page
    ensures emitted.Some? <==> page != config.currentPage && 0 <= page < config.totalPages
  {
    if page != config.currentPage && page >= 0 && page < config.totalPages then Some(page) else None
  }

  function OnPreviousClick(config: PaginationConfig): (emitted: Option<int>)
    ensures emitted.Some? <==> config.currentPage != 0
    ensures emitted.Some? ==> emitted.value == config.currentPage - 1
  {
    if !IsFirstPage(config) then Some(config.currentPage - 1) else None
  }

  function OnFirstClick(config: PaginationConfig): (emitted: Option<int>)
    ensures emitted.Some? <==> config.currentPage != 0
    ensures emitted.Some? ==> emitted.value == 0
  {
    if !IsFirstPage(config) then Some(0) else None
  }

  /** The next-page button as written: it asks for `currentPage + 1` unless the current page
      equals `totalPages - 1`. */
  function OnNextClick(config: PaginationConfig): (emitted: Option<int>)
    ensures emitted.Some? <==> config.currentPage != config.totalPages - 1
    ensures emitted.Some? ==> emitted.value == config.currentPage + 1
  {
    if !IsLastPage(config) then Some(config.currentPage + 1) else None
  }

  /** The last-page button as written. */
  function OnLastClick(config: PaginationConfig): (emitted: Option<int>)
    ensures emitted.Some? <==> config.currentPage != config.totalPages - 1
    ensures emitted.Some? ==> emitted.value == config.totalPages - 1
  {
    if !IsLastPage(config) then Some(config.totalPages - 1) else None
  }

  /** With no pages at all, page 0 is not taken for the last page, so the next-page button
      asks for page 1 and the last-page button for page -1, neither of which exists. */
  lemma EmptyListNavigatesOutOfRange()
    ensures OnNextClick(DefaultConfig) == Some(1)
    ensures OnLastClick(DefaultConfig) == Some(-1)
    ensures !IsLastPage(DefaultConfig)
  {
  }

  /** The last-page test the control evidently intends: no page after the current one. */
  function IsAtLastPage(config: PaginationConfig): (last: bool)
    ensures config.currentPage >= 0 && config.totalPages <= 0 ==> last
    ensures config.currentPage == config.totalPages - 1 ==> last
  {
    config.currentPage >= config.totalPages - 1
  }

  function OnNextClickGuarded(config: PaginationConfig): (emitted: Option<int>)
    ensures config.currentPage >= 0 && emitted.Some? ==> 0 <= emitted.value < config.totalPages
    ensures emitted.Some? ==> emitted.value == config.currentPage + 1
    ensures 0 <= config.currentPage < config.totalPages - 1 ==> emitted.Some?
  {
    if !IsAtLastPage(config) then Some(config.currentPage + 1) else None
  }

  function OnLastClickGuarded(config: PaginationConfig): (emitted: Option<int>)
    ensures config.currentPage >= 0 && emitted.Some? ==> 0 <= emitted.value < config.totalPages
    ensures emitted.Some? ==> emitted.value == config.totalPages - 1
    ensures 0 <= config.currentPage < config.totalPages - 1 ==> emitted.Some?
  {
    if !IsAtLastPage(config) then Some(config.totalPages - 1) else None
  }

  /** On every page that exists the guarded buttons behave as the written ones; they differ
      only when the current page lies outside `[0, totalPages)`. */
  lemma GuardedAgreesInRange(config: PaginationConfig)
    requires 0 <= config.currentPage < config.totalPages
    ensures OnNextClickGuarded(config) == OnNextClick(config)
    ensures OnLastClickGuarded(config) == OnLastClick(config)
  {
  }
}
