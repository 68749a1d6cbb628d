/**
 * components/products/pagination.tsx: the window of at most five page
 * numbers around the current page, and the previous/next flags.
 */
module Pagination {
  import opened Types

  const MaxVisible: int := 5

  /**
   * getPageNumbers: every page when there are at most five, otherwise five
   * consecutive pages clamped to 1..totalPages, placed so the current page
   * sits in the middle where it can.
   */
  method GetPageNumbers(currentPage: int, totalPages: int) returns (pages: seq<int>)
    ensures totalPages <= MaxVisible ==>
      |pages| == (if totalPages < 0 then 0 else totalPages) && forall i :: 0 <= i < |pages| ==> pages[i] == i + 1
    ensures totalPages > MaxVisible ==>
      |pages| == MaxVisible && forall i :: 0 <= i < |pages| ==> pages[i] == pages[0] + i
    ensures totalPages > MaxVisible && currentPage <= 3 ==> pages[0] == 1
    ensures totalPages > MaxVisible && currentPage >= totalPages - 2 ==> pages[0] == totalPages - 4
    ensures totalPages > MaxVisible && 3 < currentPage < totalPages - 2 ==> pages[0] == currentPage - 2
    ensures forall i :: 0 <= i < |pages| ==> 1 <= pages[i] <= totalPages
    ensures 1 <= currentPage <= totalPages ==> currentPage in pages
  {
    pages := [];
    if totalPages <= MaxVisible {
      var i := 1;
      while i <= totalPages
        invariant 1 <= i && (totalPages >= 0 ==> i <= totalPages + 1) && (totalPages < 1 ==> i == 1)
        invariant |pages| == i - 1
        invariant forall k :: 0 <= k < |pages| ==> pages[k] == k + 1
      {
        pages := pages + [i];
        i := i + 1;
      }
      if 1 <= currentPage <= totalPages {
        assert pages[currentPage - 1] == currentPage;
      }
    } else {
      var start := if currentPage - 2 > 1 then currentPage - 2 else 1;
      var end := if currentPage + 2 < totalPages then currentPage + 2 else totalPages;
      if start == 1 {
        end := if MaxVisible < totalPages then MaxVisible else totalPages;
      }
      if end == totalPages {
        start := if totalPages - 4 > 1 then totalPages - 4 else 1;
      }
      assert end == start + 4;
      var i := start;
      while i <= end
        invariant start <= i <= end + 1
        invariant |pages| == i - start
        invariant forall k :: 0 <= k < |pages| ==> pages[k] == start + k
      {
        pages := pages + [i];
        i := i + 1;
      }
      if 1 <= currentPage <= totalPages {
        assert pages[currentPage - start] == currentPage;
      }
    }
  }

  /** What the component renders: the page buttons and whether "previous" and "next" are enabled. */
  datatype PaginationView = PaginationView(pages: seq<int>, hasPrevious: bool, hasNext: bool)

  /** Pagination: nothing for a single page or none; otherwise the window and the two flags. */
  method Render(currentPage: int, totalPages: int) returns (view: Option<PaginationView>)
    ensures view.None? <==> totalPages <= 1
    ensures view.Some? ==> (view.value.hasPrevious <==> currentPage > 1)
    ensures view.Some? ==> (view.value.hasNext <==> currentPage < totalPages)
    ensures view.Some? ==> 2 <= |view.value.pages| <= MaxVisible
    ensures view.Some? ==> forall i :: 0 <= i < |view.value.pages| ==> 1 <= view.value.pages[i] <= totalPages
    ensures view.Some? && 1 <= currentPage <= totalPages ==> currentPage in view.value.pages
  {
    if totalPages <= 1 {
      return None;
    }
    var pages := GetPageNumbers(currentPage, totalPages);
    view := Some(PaginationView(pages, currentPage > 1, currentPage < totalPages));
  }
}
