/**
 * The home page's pagination (src/pages/HomePage.tsx): six events per page,
 * the page count, the slice of events a page shows, the previous/next moves
 * and the page-number strip with its five-page window and ellipses.
 */
module Pagination {

  const EventsPerPage: nat := 6
  const MaxVisiblePages: nat := 5

  /** One entry of the page-number strip: a page button or the `'...'` marker. */
  datatype PageItem = Page(number: int) | Ellipsis

  /** `Math.ceil(n / eventsPerPage)`: the fewest pages of six that hold `n` events. */
  function TotalPages(n: nat): (t: nat)
    ensures t * EventsPerPage >= n
    ensures t > 0 ==> (t - 1) * EventsPerPage < n
    ensures t == 0 <==> n == 0
  {
    (n + EventsPerPage - 1) / EventsPerPage
  }

  /** A position as `Array.prototype.slice` reads it: a negative one counts back from the end; both are clamped to the list. */
  function SlicePosition(len: nat, p: int): (q: nat)
    ensures q <= len
    ensures 0 <= p <= len ==> q == p
    ensures p > len ==> q == len
    ensures p < 0 ==> q == if len + p > 0 then len + p else 0
  {
    if p < 0 then (if len + p > 0 then len + p else 0) else if p > len then len else p
  }

  /** `s.slice(start, end)`: the elements between the two positions, none when they cross. */
  function Slice<T>(s: seq<T>, start: int, end: int): (r: seq<T>)
    ensures var from, to := SlicePosition(|s|, start), SlicePosition(|s|, end);
      (to <= from ==> r == []) && (from < to ==> r == s[from..to])
  {
    var from, to := SlicePosition(|s|, start), SlicePosition(|s|, end);
    if to <= from then [] else s[from..to]
  }

  /**
   * The events page `currentPage` shows: `slice(startIndex, startIndex + 6)`,
   * at most six events, cut at the end of the list; no events at all on page
   * 0, where the slice runs from `-6` to `0`.
   */
  function PageSlice<T>(s: seq<T>, currentPage: int): (r: seq<T>)
    ensures |r| <= EventsPerPage
    ensures var start := (currentPage - 1) * EventsPerPage;
      currentPage >= 1 ==>
        (start >= |s| ==> r == []) &&
        (start < |s| ==> r == s[start..if start + EventsPerPage <= |s| then start + EventsPerPage else |s|])
    ensures currentPage == 0 ==> r == []
  {
    var start := (currentPage - 1) * EventsPerPage;
    Slice(s, start, start + EventsPerPage)
  }

  /** The first `k` pages, one after another. */
  function FirstPages<T>(s: seq<T>, k: nat): seq<T> {
    if k == 0 then [] else FirstPages(s, k - 1) + PageSlice(s, k)
  }

  /** The first `k` pages are the first `6k` events (all of them once `6k` passes the end). */
  lemma {:induction false} FirstPagesPrefix<T>(s: seq<T>, k: nat)
    ensures FirstPages(s, k) == s[..if k * EventsPerPage <= |s| then k * EventsPerPage else |s|]
  {
    if k > 0 {
      FirstPagesPrefix(s, k - 1);
    }
  }

  /** The pages 1..TotalPages, read in order, show every event exactly once and in order. */
  lemma PagesPartition<T>(s: seq<T>)
    ensures FirstPages(s, TotalPages(|s|)) == s
  {
    FirstPagesPrefix(s, TotalPages(|s|));
  }

  /** Every page between 1 and the page count shows at least one event. */
  lemma PageNonEmpty<T>(s: seq<T>, currentPage: int)
    requires 1 <= currentPage <= TotalPages(|s|)
    ensures PageSlice(s, currentPage) != []
  {
  }

  /** `goToPreviousPage`: one page back unless already on the first. */
  function PreviousPage(currentPage: int): (r: int)
    ensures currentPage > 1 ==> r == currentPage - 1
    ensures currentPage <= 1 ==> r == currentPage
  {
    if currentPage > 1 then currentPage - 1 else currentPage
  }

  /** `goToNextPage`: one page on unless already on the last. */
  function NextPage(currentPage: int, totalPages: nat): (r: int)
    ensures currentPage < totalPages ==> r == currentPage + 1
    ensures currentPage >= totalPages ==> r == currentPage
  {
    if currentPage < totalPages then currentPage + 1 else currentPage
  }

  /** Moving never leaves the range 1..totalPages once inside it, and back undoes forward. */
  lemma MovesStayInRange(currentPage: int, totalPages: nat)
    requires 1 <= currentPage <= totalPages
    ensures 1 <= PreviousPage(currentPage) <= totalPages
    ensures 1 <= NextPage(currentPage, totalPages) <= totalPages
    ensures currentPage < totalPages ==> PreviousPage(NextPage(currentPage, totalPages)) == currentPage
    ensures currentPage > 1 ==> NextPage(PreviousPage(currentPage), totalPages) == currentPage
  {
  }

  /** The page buttons `lo`, `lo + 1`, ..., `hi`. */
  function Run(lo: int, hi: int): (r: seq<PageItem>)
    ensures |r| == if hi < lo then 0 else hi - lo + 1
    ensures forall k :: 0 <= k < |r| ==> r[k] == Page(lo + k)
  {
    if hi < lo then [] else seq(hi - lo + 1, k => Page(lo + k))
  }

  /** The run up to `hi + 1` is the run up to `hi` followed by page `hi + 1`. */
  lemma RunExtend(lo: int, hi: int)
    requires lo <= hi + 1
    ensures Run(lo, hi + 1) == Run(lo, hi) + [Page(hi + 1)]
  {
    var r, r' := Run(lo, hi), Run(lo, hi + 1);
    assert forall k :: 0 <= k < |r'| ==> r'[k] == (r + [Page(hi + 1)])[k];
  }

  /** The strip in front of the window starting at `lo`: page 1, then `'...'` when page 2 is skipped. */
  function Head(lo: int): seq<PageItem> {
    if lo > 1 then [Page(1)] + (if lo > 2 then [Ellipsis] else []) else []
  }

  /** The strip after the window ending at `hi`: `'...'` when page `totalPages - 1` is skipped, then the last page. */
  function Tail(hi: int, totalPages: int): seq<PageItem> {
    if hi < totalPages then (if hi < totalPages - 1 then [Ellipsis] else []) + [Page(totalPages)] else []
  }

  /** The strip for a window `lo..hi`. */
  function Layout(lo: int, hi: int, totalPages: int): seq<PageItem> {
    Head(lo) + Run(lo, hi) + Tail(hi, totalPages)
  }

  /**
   * The first page of the five-page window when there are more than five
   * pages: the first five near the start, the last five near the end, and
   * otherwise two pages either side of the current one.
   */
  function WindowStart(totalPages: nat, currentPage: int): (lo: int)
    requires totalPages > MaxVisiblePages
    ensures 1 <= lo && lo + 4 <= totalPages
    ensures currentPage <= 3 ==> lo == 1
    ensures currentPage >= totalPages - 2 ==> lo == totalPages - 4
    ensures 1 <= currentPage <= totalPages ==> lo <= currentPage <= lo + 4
    ensures 3 < currentPage < totalPages - 2 ==> lo == currentPage - 2
  {
    if currentPage <= 3 then 1
    else if currentPage >= totalPages - 2 then totalPages - 4
    else currentPage - 2
  }

  /** Neighbouring page buttons are consecutive pages. */
  predicate Adjacent(items: seq<PageItem>) {
    forall i :: 0 <= i < |items| - 1 && items[i].Page? && items[i + 1].Page? ==> items[i + 1].number == items[i].number + 1
  }

  /** Every `'...'` sits between two page buttons whose pages are not consecutive. */
  predicate GapsMarked(items: seq<PageItem>) {
    forall i :: 0 <= i < |items| && items[i].Ellipsis? ==>
      0 < i < |items| - 1 && items[i - 1].Page? && items[i + 1].Page? && items[i + 1].number > items[i - 1].number + 1
  }

  /** Page numbers strictly increase from left to right. */
  predicate Increasing(items: seq<PageItem>) {
    forall i, j :: 0 <= i < j < |items| && items[i].Page? && items[j].Page? ==> items[i].number < items[j].number
  }

  /** A strip whose neighbours are consecutive and whose gaps are marked is increasing. */
  lemma {:induction false} SpacedIsIncreasing(items: seq<PageItem>)
    requires Adjacent(items) && GapsMarked(items)
    ensures Increasing(items)
  {
    forall i, j | 0 <= i < j < |items| && items[i].Page? && items[j].Page?
      ensures items[i].number < items[j].number
    {
      IncreasingFrom(items, i, j);
    }
  }

  /** The step of `SpacedIsIncreasing`: walk right from `i` one button or one `'...'` at a time. */
  lemma {:induction false} IncreasingFrom(items: seq<PageItem>, i: int, j: int)
    requires Adjacent(items) && GapsMarked(items)
    requires 0 <= i < j < |items| && items[i].Page? && items[j].Page?
    ensures items[i].number < items[j].number
    decreases j - i
  {
    if items[i + 1].Page? {
      if i + 1 < j {
        IncreasingFrom(items, i + 1, j);
      }
    } else {
      assert items[i + 2].Page?;
      if i + 2 < j {
        IncreasingFrom(items, i + 2, j);
      }
    }
  }

  /** The strip shows the whole window `lo..lo + 4` and no page outside it but the first and the last. */
  predicate ShowsWindow(items: seq<PageItem>, lo: int, totalPages: int) {
    (forall p :: lo <= p <= lo + 4 ==> Page(p) in items) &&
    (forall k :: 0 <= k < |items| && items[k].Page? ==>
      items[k].number == 1 || items[k].number == totalPages || lo <= items[k].number <= lo + 4)
  }

  /** Where each entry of a strip comes from: the head, the window or the tail. */
  lemma LayoutAt(lo: int, totalPages: int, k: int)
    requires 1 <= lo && lo + 4 <= totalPages
    requires 0 <= k < |Layout(lo, lo + 4, totalPages)|
    ensures var h := Head(lo); var items := Layout(lo, lo + 4, totalPages);
      (k < |h| ==> items[k] == h[k]) &&
      (|h| <= k < |h| + 5 ==> items[k] == Page(lo + k - |h|)) &&
      (|h| + 5 <= k ==> items[k] == Tail(lo + 4, totalPages)[k - |h| - 5])
  {
  }

  /** For a five-page window inside 1..totalPages, the strip starts with page 1 and ends with the last page. */
  lemma LayoutEnds(lo: int, totalPages: int)
    requires 1 <= lo && lo + 4 <= totalPages
    ensures var items := Layout(lo, lo + 4, totalPages);
      items != [] && items[0] == Page(1) && items[|items| - 1] == Page(totalPages)
  {
    var items := Layout(lo, lo + 4, totalPages);
    LayoutAt(lo, totalPages, 0);
    LayoutAt(lo, totalPages, |items| - 1);
  }

  /** Neighbouring buttons of such a strip are consecutive pages. */
  lemma LayoutAdjacent(lo: int, totalPages: int)
    requires 1 <= lo && lo + 4 <= totalPages
    ensures Adjacent(Layout(lo, lo + 4, totalPages))
  {
    var items := Layout(lo, lo + 4, totalPages);
    forall i | 0 <= i < |items| - 1 && items[i].Page? && items[i + 1].Page?
      ensures items[i + 1].number == items[i].number + 1
    {
      LayoutAt(lo, totalPages, i);
      LayoutAt(lo, totalPages, i + 1);
    }
  }

  /** Each `'...'` of such a strip stands for skipped pages. */
  lemma LayoutGaps(lo: int, totalPages: int)
    requires 1 <= lo && lo + 4 <= totalPages
    ensures GapsMarked(Layout(lo, lo + 4, totalPages))
  {
    var items := Layout(lo, lo + 4, totalPages);
    forall i | 0 <= i < |items| && items[i].Ellipsis?
      ensures 0 < i < |items| - 1 && items[i - 1].Page? && items[i + 1].Page? && items[i + 1].number > items[i - 1].number + 1
    {
      LayoutAt(lo, totalPages, i);
      LayoutAt(lo, totalPages, i - 1);
      LayoutAt(lo, totalPages, i + 1);
    }
  }

  /** Such a strip shows the whole window and no other page but the first and the last. */
  lemma LayoutWindow(lo: int, totalPages: int)
    requires 1 <= lo && lo + 4 <= totalPages
    ensures ShowsWindow(Layout(lo, lo + 4, totalPages), lo, totalPages)
  {
    var h := Head(lo);
    var items := Layout(lo, lo + 4, totalPages);
    forall p | lo <= p <= lo + 4
      ensures Page(p) in items
    {
      LayoutAt(lo, totalPages, |h| + (p - lo));
    }
    forall k | 0 <= k < |items| && items[k].Page?
      ensures items[k].number == 1 || items[k].number == totalPages || lo <= items[k].number <= lo + 4
    {
      LayoutAt(lo, totalPages, k);
    }
  }

  /** Everything `getPageNumbers` promises of the strip for a five-page window inside 1..totalPages. */
  lemma LayoutShape(lo: int, totalPages: int)
    requires 1 <= lo && lo + 4 <= totalPages
    ensures var items := Layout(lo, lo + 4, totalPages);
      items[0] == Page(1) && items[|items| - 1] == Page(totalPages) &&
      Adjacent(items) && GapsMarked(items) && Increasing(items) && ShowsWindow(items, lo, totalPages)
  {
    LayoutEnds(lo, totalPages);
    LayoutAdjacent(lo, totalPages);
    LayoutGaps(lo, totalPages);
    LayoutWindow(lo, totalPages);
    SpacedIsIncreasing(Layout(lo, lo + 4, totalPages));
  }

  /**
   * `getPageNumbers`: with at most five pages every page from 1 up; with
   * more, page 1, the five-page window `WindowStart` picks (which holds the
   * current page when that is a page) and the last page, in increasing
   * order and with `'...'` exactly where pages are skipped.
   */
  method GetPageNumbers(totalPages: nat, currentPage: int) returns (pages: seq<PageItem>)
    ensures totalPages <= MaxVisiblePages ==> pages == Run(1, totalPages)
    ensures totalPages > MaxVisiblePages ==>
      pages == Layout(WindowStart(totalPages, currentPage), WindowStart(totalPages, currentPage) + 4, totalPages)
    ensures totalPages > MaxVisiblePages ==>
      pages[0] == Page(1) && pages[|pages| - 1] == Page(totalPages) &&
      Adjacent(pages) && GapsMarked(pages) && Increasing(pages) &&
      ShowsWindow(pages, WindowStart(totalPages, currentPage), totalPages)
  {
    if totalPages <= MaxVisiblePages {
      pages := [];
      var i := 1;
      while i <= totalPages
        invariant 1 <= i <= totalPages + 1
        invariant pages == Run(1, i - 1)
      {
        pages := pages + [Page(i)];
        i := i + 1;
      }
    } else {
      pages := WindowedPages(totalPages, currentPage);
      LayoutShape(WindowStart(totalPages, currentPage), totalPages);
    }
  }

  /**
   * The window's first and last page: two either side of the current page,
   * clipped to the range, then moved to the first five near the start and
   * to the last five near the end.
   */
  method WindowBounds(totalPages: nat, currentPage: int) returns (startPage: int, endPage: int)
    requires totalPages > MaxVisiblePages
    ensures startPage == WindowStart(totalPages, currentPage) && endPage == startPage + 4
  {
    startPage := if currentPage - 2 > 1 then currentPage - 2 else 1;
    endPage := if currentPage + 2 < totalPages then currentPage + 2 else totalPages;
    if currentPage <= 3 {
      endPage := if totalPages < 5 then totalPages else 5;
    }
    if currentPage >= totalPages - 2 {
      startPage := if totalPages - 4 > 1 then totalPages - 4 else 1;
    }
  }

  /** The windowed branch of `getPageNumbers`: page 1, the window and the last page, with the gaps marked. */
  method WindowedPages(totalPages: nat, currentPage: int) returns (pages: seq<PageItem>)
    requires totalPages > MaxVisiblePages
    ensures pages == Layout(WindowStart(totalPages, currentPage), WindowStart(totalPages, currentPage) + 4, totalPages)
  {
    pages := [];
    var startPage, endPage := WindowBounds(totalPages, currentPage);

    if startPage > 1 {
      pages := pages + [Page(1)];
      if startPage > 2 {
        pages := pages + [Ellipsis];
      }
    }
    assert pages == Head(startPage);
    var i := startPage;
    while i <= endPage
      invariant startPage <= i <= endPage + 1
      invariant pages == Head(startPage) + Run(startPage, i - 1)
    {
      RunExtend(startPage, i - 1);
      assert Head(startPage) + Run(startPage, i - 1) + [Page(i)] == Head(startPage) + (Run(startPage, i - 1) + [Page(i)]);
      pages := pages + [Page(i)];
      i := i + 1;
    }
    if endPage < totalPages {
      if endPage < totalPages - 1 {
        pages := pages + [Ellipsis];
      }
      pages := pages + [Page(totalPages)];
    }
  }
}
