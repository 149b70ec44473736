/**
 * The pagination bar: a window of at most five consecutive page numbers around the
 * current page, the first and last page buttons with their ellipses, and the
 * previous and next buttons.
 */
module Pagination {
  import opened Catalog

  /** `maxVisible`. */
  const MaxVisible: int := 5

  /** What the bar renders: nothing, or the window and the state of every extra button. */
  datatype Bar =
    | Hidden
    | Shown(
        pages: seq<int>,
        start: int,
        end: int,
        showFirst: bool,
        leadingEllipsis: bool,
        showLast: bool,
        trailingEllipsis: bool,
        prevDisabled: bool,
        nextDisabled: bool)

  /**
   * Computes the bar for `currentPage` of `totalPages`. The window is the run
   * `start..end` inside `1..totalPages`, always `min(5, totalPages)` long, and it holds
   * the current page whenever that page exists; every other page is reachable through
   * the first or last button or lies behind an ellipsis.
   */
  method Layout(currentPage: int, totalPages: int) returns (bar: Bar)
    ensures bar.Hidden? <==> totalPages <= 1
    ensures bar.Shown? ==>
      && 1 <= bar.start && bar.end <= totalPages
      && |bar.pages| == bar.end - bar.start + 1 == Min(MaxVisible, totalPages)
      && (forall k :: 0 <= k < |bar.pages| ==> bar.pages[k] == bar.start + k)
    ensures bar.Shown? ==> bar.start == Max(1, Min(currentPage - MaxVisible / 2, totalPages - MaxVisible + 1))
    ensures bar.Shown? && 1 <= currentPage <= totalPages ==> currentPage in bar.pages
    ensures bar.Shown? ==>
      && (bar.showFirst <==> 1 !in bar.pages)
      && (bar.leadingEllipsis <==> bar.showFirst && 2 !in bar.pages)
      && (bar.showLast <==> totalPages !in bar.pages)
      && (bar.trailingEllipsis <==> bar.showLast && totalPages - 1 !in bar.pages)
    ensures bar.Shown? ==> forall p :: 1 <= p <= totalPages ==>
      || p in bar.pages
      || (p == 1 && bar.showFirst)
      || (p == totalPages && bar.showLast)
      || (1 < p < bar.start && bar.leadingEllipsis)
      || (bar.end < p < totalPages && bar.trailingEllipsis)
    ensures bar.Shown? ==>
      && (bar.prevDisabled <==> currentPage == 1)
      && (bar.nextDisabled <==> currentPage == totalPages)
  {
    if totalPages <= 1 {
      return Hidden;
    }
    var pages: seq<int> := [];
    var start := Max(1, currentPage - MaxVisible / 2);
    var end := Min(totalPages, start + MaxVisible - 1);
    if end - start + 1 < MaxVisible {
      start := Max(1, end - MaxVisible + 1);
    }
    var i := start;
    while i <= end
      invariant start <= i <= end + 1
      invariant |pages| == i - start
      invariant forall k :: 0 <= k < |pages| ==> pages[k] == start + k
    {
      pages := pages + [i];
      i := i + 1;
    }
    assert forall p :: p in pages <==> start <= p <= end by {
      forall p | start <= p <= end ensures p in pages {
        assert pages[p - start] == p;
      }
    }
    bar := Shown(pages, start, end,
                 start > 1, start > 2,
                 end < totalPages, end < totalPages - 1,
                 currentPage == 1, currentPage == totalPages);
  }
}
