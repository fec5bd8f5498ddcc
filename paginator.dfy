/** The numeric part of `Paginator` (src/components/common/Paginator.jsx):
    the "showing x to y" bounds and the list of page buttons, with `'...'`
    standing for the pages left out. */
module Paginator {
  import opened Js
  import Pagination

  datatype PageEntry = Page(number: int) | Gap

  const MaxVisible := 5

  function Max(a: int, b: int): int { if a > b then a else b }
  function Min(a: int, b: int): int { if a < b then a else b }

  /** The buttons `lo, lo + 1, ..., hi`. */
  function Range(lo: int, hi: int): (r: seq<PageEntry>)
    ensures |r| == if hi >= lo then hi - lo + 1 else 0
    ensures forall k :: 0 <= k < |r| ==> r[k] == Page(lo + k)
    decreases hi - lo
  {
    if hi < lo then [] else Range(lo, hi - 1) + [Page(hi)]
  }

  /** First and last page of the window around the current page, after the
      two corrections for a current page near either end. */
  function WindowStart(current: int, total: int): int
  {
    if current <= 3 then Max(2, current - 1)
    else if current >= total - 2 then total - 3
    else Max(2, current - 1)
  }

  function WindowEnd(current: int, total: int): int
  {
    if current <= 3 then 4 else Min(total - 1, current + 1)
  }

  /** What `getPageNumbers` returns: every page when there are at most five,
      otherwise the first page, the window and the last page, with a gap
      marker wherever the window does not touch an end. */
  function PageNumbers(current: int, total: int): (r: seq<PageEntry>)
    ensures |r| <= MaxVisible + 2
    ensures total >= 1 ==> |r| > 0 && r[0] == Page(1) && r[|r| - 1] == Page(total)
  {
    if total <= MaxVisible then Range(1, total)
    else
      var s := WindowStart(current, total);
      var e := WindowEnd(current, total);
      [Page(1)] + (if s > 2 then [Gap] else []) + Range(s, e) + (if e < total - 1 then [Gap] else []) + [Page(total)]
  }

  /** The `for (let i = lo; i <= hi; i++) pages.push(i)` loops. */
  method PushRange(pages: seq<PageEntry>, lo: int, hi: int) returns (r: seq<PageEntry>)
    ensures r == pages + Range(lo, hi)
  {
    r := pages;
    var i := lo;
    while i <= hi
      invariant lo <= i <= Max(lo, hi + 1)
      invariant r == pages + Range(lo, i - 1)
      decreases hi - i
    {
      assert Range(lo, i) == Range(lo, i - 1) + [Page(i)];
      r := r + [Page(i)];
      i := i + 1;
    }
  }

  /** `getPageNumbers()`: pushes the buttons one by one. */
  method GetPageNumbers(current: int, total: int) returns (pages: seq<PageEntry>)
    ensures pages == PageNumbers(current, total)
  {
    if total <= MaxVisible {
      pages := PushRange([], 1, total);
      return;
    }
    pages := [Page(1)];
    var start := Max(2, current - 1);
    var end := Min(total - 1, current + 1);
    if current <= 3 {
      end := 4;
    } else if current >= total - 2 {
      start := total - 3;
    }
    assert start == WindowStart(current, total) && end == WindowEnd(current, total);
    if start > 2 {
      pages := pages + [Gap];
    }
    pages := PushRange(pages, start, end);
    if end < total - 1 {
      pages := pages + [Gap];
    }
    pages := pages + [Page(total)];
  }

  /** With more than five pages the list is one of three shapes, by where
      the current page lies. */
  lemma PageNumbersCases(current: int, total: int)
    requires total > MaxVisible
    ensures current <= 3 ==>
              PageNumbers(current, total) == [Page(1), Page(2), Page(3), Page(4), Gap, Page(total)]
    ensures 3 < current && current >= total - 2 ==>
              PageNumbers(current, total) == [Page(1), Gap, Page(total - 3), Page(total - 2), Page(total - 1), Page(total)]
    ensures 3 < current < total - 2 ==>
              PageNumbers(current, total) == [Page(1), Gap, Page(current - 1), Page(current), Page(current + 1), Gap, Page(total)]
  {
    var s := WindowStart(current, total);
    var e := WindowEnd(current, total);
    assert Range(s, e) == [Page(s)] + Range(s + 1, e);
    assert Range(s + 1, e) == [Page(s + 1)] + Range(s + 2, e);
    assert Range(s + 2, e) == [Page(s + 2)] + Range(s + 3, e);
  }

  /** At most five pages: every page, in order. */
  lemma FewPages(current: int, total: int)
    requires 1 < total <= MaxVisible
    ensures |PageNumbers(current, total)| == total
    ensures forall k :: 0 <= k < total ==> PageNumbers(current, total)[k] == Page(k + 1)
  {
  }

  predicate Increasing(p: seq<PageEntry>)
  {
    forall i, j :: 0 <= i < j < |p| && p[i].Page? && p[j].Page? ==> p[i].number < p[j].number
  }

  /** A gap sits between two buttons and stands for at least one page;
      two adjacent buttons are consecutive pages. */
  predicate GapsExact(p: seq<PageEntry>)
  {
    (forall i :: 0 <= i < |p| && p[i].Gap? ==>
       0 < i < |p| - 1 && p[i - 1].Page? && p[i + 1].Page? && p[i - 1].number + 1 < p[i + 1].number)
    && forall i :: 0 <= i < |p| - 1 && p[i].Page? && p[i + 1].Page? ==> p[i + 1].number == p[i].number + 1
  }

  /** What `ManyPages` promises of one list. */
  predicate WellFormed(p: seq<PageEntry>, current: int, total: int)
  {
    |p| <= 7 && |p| > 0 && p[0] == Page(1) && p[|p| - 1] == Page(total)
    && Increasing(p) && GapsExact(p)
    && (1 <= current <= total ==> Page(current) in p)
    && forall i :: 0 <= i < |p| && p[i].Page? ==> 1 <= p[i].number <= total
  }

  lemma NearStart(current: int, total: int)
    requires total > MaxVisible && current <= 3
    ensures WellFormed([Page(1), Page(2), Page(3), Page(4), Gap, Page(total)], current, total)
  {
    NearStartOrder(total);
  }

  lemma NearStartOrder(total: int)
    requires total > MaxVisible
    ensures var p := [Page(1), Page(2), Page(3), Page(4), Gap, Page(total)];
            Increasing(p) && GapsExact(p)
  {
    var p := [Page(1), Page(2), Page(3), Page(4), Gap, Page(total)];
    forall i, j | 0 <= i < j < |p| && p[i].Page? && p[j].Page?
      ensures p[i].number < p[j].number
    {
      assert p[i].number == i + 1;
      assert j < 4 ==> p[j].number == j + 1;
    }
    forall i | 0 <= i < |p| - 1 && p[i].Page? && p[i + 1].Page?
      ensures p[i + 1].number == p[i].number + 1
    {
      assert i < 3;
    }
  }

  lemma NearEnd(current: int, total: int)
    requires total > MaxVisible && 3 < current && current >= total - 2
    ensures WellFormed([Page(1), Gap, Page(total - 3), Page(total - 2), Page(total - 1), Page(total)], current, total)
  {
  }

  lemma InMiddle(current: int, total: int)
    requires total > MaxVisible && 3 < current < total - 2
    ensures WellFormed([Page(1), Gap, Page(current - 1), Page(current), Page(current + 1), Gap, Page(total)], current, total)
  {
  }

  /** More than five pages: the list starts at 1, ends at the last page,
      strictly increases, holds at most seven entries, shows the current page
      when it is in range, and places gaps exactly where pages are left out. */
  lemma ManyPages(current: int, total: int)
    requires total > MaxVisible
    ensures WellFormed(PageNumbers(current, total), current, total)
  {
    PageNumbersCases(current, total);
    if current <= 3 {
      NearStart(current, total);
    } else if current >= total - 2 {
      NearEnd(current, total);
    } else {
      InMiddle(current, total);
    }
  }

  /** `startItem` and `endItem` for the "showing x to y of n" text. */
  function StartItem(current: int, perPage: int): int
  {
    (current - 1) * perPage + 1
  }

  function EndItem(current: int, perPage: int, totalItems: int): (e: int)
    ensures e <= totalItems
  {
    Min(current * perPage, totalItems)
  }

  /** On a page that starts within the list, the bounds span exactly the
      items `usePagination` shows on it. */
  lemma ItemBoundsSpanPage<T>(items: seq<T>, current: int, perPage: Pagination.PageSize)
    requires 1 <= current && (current - 1) * perPage < |items|
    ensures EndItem(current, perPage, |items|) - StartItem(current, perPage) + 1
              == |Pagination.PageItems(items, current, perPage)|
    ensures StartItem(current, perPage) <= EndItem(current, perPage, |items|)
  {
    Pagination.EndIndexCountsShown(items, current, perPage);
  }

  datatype PaginatorView = PaginatorView(startItem: int, endItem: int, pages: seq<PageEntry>)

  /** The component: nothing at all for a single page. */
  method Render(current: int, total: int, perPage: int, totalItems: int) returns (view: Option<PaginatorView>)
    ensures view.None? <==> total <= 1
    ensures view.Some? ==>
              view.value == PaginatorView(StartItem(current, perPage), EndItem(current, perPage, totalItems),
                                          PageNumbers(current, total))
  {
    if total <= 1 {
      return None;
    }
    var pages := GetPageNumbers(current, total);
    view := Some(PaginatorView((current - 1) * perPage + 1, Min(current * perPage, totalItems), pages));
  }
}
