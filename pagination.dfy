/** The movie list's pagination bar: a window of at most five page numbers
    around the current page, a first-page and a last-page button with
    ellipses when the window does not reach the ends, and previous/next
    buttons. Page numbers are 1-based. */
module Pagination {

  const SHOW_PAGES: int := 5

  function Max(a: int, b: int): int { if a >= b then a else b }
  function Min(a: int, b: int): int { if a <= b then a else b }

  /** The pages a, a+1, ..., b-1. */
  function Range(a: int, b: int): (r: seq<int>)
    ensures |r| == Max(0, b - a)
    ensures forall i :: 0 <= i < |r| ==> r[i] == a + i
    decreases b - a
  {
    if b <= a then [] else Range(a, b - 1) + [b - 1]
  }

  /** The first and last page of the window: currentPage +- 2, clipped to
      [1, totalPages], then widened to five pages where there is room. */
  function WindowBounds(currentPage: int, totalPages: int): (int, int) {
    var startPage := Max(1, currentPage - 2);
    var endPage := Min(totalPages, currentPage + 2);
    if endPage - startPage < SHOW_PAGES - 1 then
      if startPage == 1 then (startPage, Min(totalPages, startPage + SHOW_PAGES - 1))
      else (Max(1, endPage - SHOW_PAGES + 1), endPage)
    else (startPage, endPage)
  }

  /** The page numbers getPageNumbers returns. */
  function PageNumbers(currentPage: int, totalPages: int): seq<int> {
    var (s, e) := WindowBounds(currentPage, totalPages);
    Range(s, e + 1)
  }

  /** getPageNumbers: push startPage..endPage one by one. */
  method GetPageNumbers(currentPage: int, totalPages: int) returns (pages: seq<int>)
    ensures pages == PageNumbers(currentPage, totalPages)
  {
    var (startPage, endPage) := WindowBounds(currentPage, totalPages);
    pages := [];
    var i := startPage;
    while i <= endPage
      invariant startPage <= i <= Max(startPage, endPage + 1)
      invariant pages == Range(startPage, i)
      decreases endPage - i
    {
      pages := pages + [i];
      i := i + 1;
    }
  }

  /** What the bar shows. */
  datatype View =
    | Hidden
    | Bar(prevDisabled: bool, firstButton: bool, leadingEllipsis: bool, pages: seq<int>,
          trailingEllipsis: bool, lastButton: bool, nextDisabled: bool)

  function Render(currentPage: int, totalPages: int): View {
    if totalPages <= 1 then Hidden
    else
      var pages := PageNumbers(currentPage, totalPages);
      var first := |pages| > 0 && pages[0] > 1;
      var last := |pages| > 0 && pages[|pages| - 1] < totalPages;
      Bar(currentPage == 1,
          first, first && pages[0] > 2,
          pages,
          last && pages[|pages| - 1] < totalPages - 1, last,
          currentPage == totalPages)
  }

  // ---------------------------------------------------------------------------
  // Properties
  // ---------------------------------------------------------------------------

  /** For a current page in range, the window is an ascending run of
      consecutive pages inside [1, totalPages] that holds the current page,
      and it is as long as it can be, up to five. */
  lemma WindowShape(currentPage: int, totalPages: int)
    requires 1 <= currentPage <= totalPages
    ensures var pages := PageNumbers(currentPage, totalPages);
      && |pages| == Min(SHOW_PAGES, totalPages)
      && (forall i :: 0 <= i < |pages| ==> pages[i] == pages[0] + i)
      && 1 <= pages[0] && pages[|pages| - 1] <= totalPages
      && currentPage in pages
  {
    var (s, e) := WindowBounds(currentPage, totalPages);
    assert 1 <= s <= currentPage <= e <= totalPages;
    assert e - s + 1 == Min(SHOW_PAGES, totalPages);
    var pages := PageNumbers(currentPage, totalPages);
    assert pages[currentPage - s] == currentPage;
  }

  /** With two pages of room on each side, the window is the current page
      and the two pages either side of it. */
  lemma WindowCentredWhenRoom(currentPage: int, totalPages: int)
    requires 3 <= currentPage <= totalPages - 2
    ensures PageNumbers(currentPage, totalPages) == Range(currentPage - 2, currentPage + 3)
  {
  }

  /** The first-page button shows exactly when page 1 is outside the window;
      the leading ellipsis exactly when page 2 is outside it too, that is
      when pages are skipped between the button and the window. */
  lemma FirstButtonAndEllipsis(currentPage: int, totalPages: int)
    requires 1 <= currentPage <= totalPages && totalPages > 1
    ensures var v := Render(currentPage, totalPages);
      && (v.firstButton <==> 1 !in v.pages)
      && (v.leadingEllipsis <==> 1 !in v.pages && 2 !in v.pages)
  {
    WindowShape(currentPage, totalPages);
    var pages := PageNumbers(currentPage, totalPages);
    if 1 in pages {
      var i :| 0 <= i < |pages| && pages[i] == 1;
      assert pages[i] == pages[0] + i;
    }
    if 2 in pages {
      var i :| 0 <= i < |pages| && pages[i] == 2;
      assert pages[i] == pages[0] + i;
    }
    if pages[0] == 2 {
      assert 2 in pages;
    }
  }

  /** The last-page button shows exactly when the last page is outside the
      window; the trailing ellipsis exactly when the page before it is too. */
  lemma LastButtonAndEllipsis(currentPage: int, totalPages: int)
    requires 1 <= currentPage <= totalPages && totalPages > 1
    ensures var v := Render(currentPage, totalPages);
      && (v.lastButton <==> totalPages !in v.pages)
      && (v.trailingEllipsis <==> totalPages !in v.pages && totalPages - 1 !in v.pages)
  {
    WindowShape(currentPage, totalPages);
    var pages := PageNumbers(currentPage, totalPages);
    var n := |pages|;
    if totalPages in pages {
      var i :| 0 <= i < n && pages[i] == totalPages;
      assert pages[i] == pages[0] + i && pages[n - 1] == pages[0] + n - 1;
    }
    if totalPages - 1 in pages {
      var i :| 0 <= i < n && pages[i] == totalPages - 1;
      assert pages[i] == pages[0] + i && pages[n - 1] == pages[0] + n - 1;
    }
    if pages[n - 1] == totalPages - 1 {
      assert totalPages - 1 in pages;
    }
  }

  /** The first and the last page are always one click away: inside the
      window or on their own button. */
  lemma EndsAlwaysReachable(currentPage: int, totalPages: int)
    requires 1 <= currentPage <= totalPages && totalPages > 1
    ensures var v := Render(currentPage, totalPages);
      && (1 in v.pages || v.firstButton)
      && (totalPages in v.pages || v.lastButton)
  {
    FirstButtonAndEllipsis(currentPage, totalPages);
    LastButtonAndEllipsis(currentPage, totalPages);
  }

  /** The bar is hidden exactly when there is nowhere else to go, the
      window holding the current page alone; when it shows, Previous and
      Next are enabled exactly when the page they lead to exists. */
  lemma NavigationTargetsExist(currentPage: int, totalPages: int)
    requires 1 <= currentPage <= totalPages
    ensures Render(currentPage, totalPages).Hidden? <==> PageNumbers(currentPage, totalPages) == [currentPage]
    ensures var v := Render(currentPage, totalPages);
      v.Bar? ==> (!v.prevDisabled <==> 1 <= currentPage - 1) && (!v.nextDisabled <==> currentPage + 1 <= totalPages)
  {
    WindowShape(currentPage, totalPages);
  }
}
