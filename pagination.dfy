/** `usePagination` and `useServerPagination` (src/hooks/usePagination.js):
    the page count, the slice shown for a page, and the current page as
    state that the navigation calls clamp into range. */
module Pagination {

  /** A page size; the source divides by it, so it is positive. */
  type PageSize = n: nat | n > 0 witness 1

  /** `Math.max(1, Math.ceil(n / perPage))` for a positive page size. */
  function PageCount(n: nat, perPage: PageSize): (t: nat)
    ensures t >= 1
    ensures n <= t * perPage
    ensures t == 1 || (t - 1) * perPage < n
  {
    if n == 0 then 1
    else
      var t := (n + perPage - 1) / perPage;
      assert t * perPage <= n + perPage - 1 < (t + 1) * perPage;
      t
  }

  /** `Math.max(1, Math.min(page, totalPages))`. */
  function Clamp(page: int, totalPages: nat): int
  {
    if page < 1 then 1 else if page > totalPages then (if totalPages < 1 then 1 else totalPages) else page
  }

  /** A relative slice index as `Array.prototype.slice` resolves it. */
  function SliceIndex(i: int, n: nat): (k: nat)
    ensures k <= n
  {
    if i < 0 then (if n + i < 0 then 0 else n + i) else if i > n then n else i
  }

  /** `xs.slice(start, end)`: a negative index counts from the end. */
  function Slice<T>(xs: seq<T>, start: int, end: int): seq<T>
  {
    var s := SliceIndex(start, |xs|);
    var e := SliceIndex(end, |xs|);
    if s < e then xs[s..e] else []
  }

  function Min(a: int, b: int): int { if a < b then a else b }

  /** `paginatedItems` for a page: `items.slice((page - 1) * per, (page - 1) * per + per)`. */
  function PageItems<T>(items: seq<T>, page: int, perPage: PageSize): (r: seq<T>)
    ensures |r| <= perPage
    ensures page >= 1 ==> r == items[Min((page - 1) * perPage, |items|)..Min(page * perPage, |items|)]
  {
    PageBounds(page, perPage);
    SliceWindow(items, (page - 1) * perPage, perPage);
    Slice(items, (page - 1) * perPage, (page - 1) * perPage + perPage)
  }

  /** A window of `width` items from `start`, as `slice` cuts it. */
  lemma SliceWindow<T>(items: seq<T>, start: int, width: nat)
    ensures |Slice(items, start, start + width)| <= width
    ensures start >= 0 ==> Slice(items, start, start + width) == items[Min(start, |items|)..Min(start + width, |items|)]
  {
  }

  lemma PageBounds(page: int, perPage: PageSize)
    ensures (page - 1) * perPage + perPage == page * perPage
    ensures page >= 1 ==> (page - 1) * perPage >= 0
  {
  }

  /** Pages `1..k` one after the other. */
  function PagesUpTo<T>(items: seq<T>, k: nat, perPage: PageSize): seq<T>
  {
    if k == 0 then [] else PagesUpTo(items, k - 1, perPage) + PageItems(items, k, perPage)
  }

  /** The first `k` pages are the first `k * perPage` items. */
  lemma {:induction false} PagesUpToPrefix<T>(items: seq<T>, k: nat, perPage: PageSize)
    ensures PagesUpTo(items, k, perPage) == items[..Min(k * perPage, |items|)]
  {
    if k > 0 {
      PagesUpToPrefix(items, k - 1, perPage);
      PageBounds(k, perPage);
      var a := Min((k - 1) * perPage, |items|);
      var b := Min(k * perPage, |items|);
      PrefixSplit(items, a, b);
    }
  }

  lemma PrefixSplit<T>(items: seq<T>, a: nat, b: nat)
    requires a <= b <= |items|
    ensures items[..a] + items[a..b] == items[..b]
  {
  }

  /** All pages together give back every item, in order. */
  lemma PagesCoverItems<T>(items: seq<T>, perPage: PageSize)
    ensures PagesUpTo(items, PageCount(|items|, perPage), perPage) == items
  {
    PagesUpToPrefix(items, PageCount(|items|, perPage), perPage);
  }

  /** `endIndex` for a page in range: `Math.min(page * per, n)`, which is the
      start of the slice plus its length. */
  lemma EndIndexCountsShown<T>(items: seq<T>, page: int, perPage: PageSize)
    requires 1 <= page
    requires (page - 1) * perPage <= |items|
    ensures Min(page * perPage, |items|) == (page - 1) * perPage + |PageItems(items, page, perPage)|
  {
  }

  /** On page `p >= 1`, a page follows exactly when items lie past
      `p * perPage`. */
  lemma NextPageIffMore(n: nat, p: int, perPage: PageSize)
    ensures p >= 1 ==> (p < PageCount(n, perPage) <==> Min(p * perPage, n) < n)
  {
    var t := PageCount(n, perPage);
    if p < 1 {
    } else if p < t {
      MulMonotone(p, t - 1, perPage);
    } else {
      MulMonotone(t, p, perPage);
    }
  }

  /** A page in range starts inside the items, or at 0 when there are none. */
  lemma StartInside(n: nat, p: int, perPage: PageSize)
    ensures 1 <= p <= PageCount(n, perPage) ==>
              0 <= (p - 1) * perPage <= n && (n > 0 ==> (p - 1) * perPage < n)
  {
    var t := PageCount(n, perPage);
    if 1 <= p <= t {
      MulMonotone(0, p - 1, perPage);
      MulMonotone(p - 1, t - 1, perPage);
    }
  }

  lemma MulMonotone(a: int, b: int, c: nat)
    requires a <= b
    ensures a * c <= b * c
  {
    assert b * c - a * c == (b - a) * c;
  }

  /** The state `usePagination(items, itemsPerPage)` keeps across renders. */
  class Pager<T> {
    var items: seq<T>
    const itemsPerPage: PageSize
    var currentPage: int

    constructor(initial: seq<T>, perPage: PageSize)
        ensures items == initial && itemsPerPage == perPage && currentPage == 1
        ensures Valid()
    {
      items := initial;
      itemsPerPage := perPage;
      currentPage := 1;
    }

    /** The current page is one of the pages. Every navigation method keeps
        this; only a page below 1 set through the raw `setCurrentPage` can
        break it, since the reset memo sends a page past the end back to 1. */
    predicate Valid()
      reads this
    {
      1 <= currentPage <= TotalPages()
    }

    /** `Math.max(1, Math.ceil(items.length / itemsPerPage))`: the fewest
        pages that hold every item, and at least one. */
    function TotalPages(): (t: nat)
      reads this
      ensures t >= 1
      ensures |items| <= t * itemsPerPage
      ensures t == 1 || (t - 1) * itemsPerPage < |items|
    {
      PageCount(|items|, itemsPerPage)
    }

    function PaginatedItems(): (r: seq<T>)
      reads this
      ensures |r| <= itemsPerPage
    {
      PageItems(items, currentPage, itemsPerPage)
    }

    /** There is a next page exactly when items lie past the current one. */
    function HasNextPage(): (b: bool)
      reads this
      ensures currentPage >= 1 ==> (b <==> EndIndex() < |items|)
    {
      NextPageIffMore(|items|, currentPage, itemsPerPage);
      currentPage < TotalPages()
    }

    /** There is a previous page exactly when items lie before the current one. */
    function HasPrevPage(): (b: bool)
      reads this
      ensures b <==> StartIndex() > 0
    {
      currentPage > 1
    }

    /** Where the current page starts: inside the list on a valid page of a
        non-empty list. */
    function StartIndex(): (i: int)
      reads this
      ensures Valid() ==> 0 <= i <= |items|
      ensures Valid() && |items| > 0 ==> i < |items|
    {
      StartInside(|items|, currentPage, itemsPerPage);
      (currentPage - 1) * itemsPerPage
    }

    function EndIndex(): (e: int)
      reads this
      ensures e <= |items|
      ensures currentPage >= 1 ==> e >= StartIndex() || e == |items|
    {
      Min(currentPage * itemsPerPage, |items|)
    }

    /** A new `items` prop; the reset effect sends a page beyond the new
        end back to page 1. */
    method SetItems(next: seq<T>)
      modifies this
      ensures items == next
      ensures currentPage == if old(currentPage) > TotalPages() then 1 else old(currentPage)
      ensures old(currentPage) >= 1 ==> Valid()
    {
      items := next;
      if currentPage > TotalPages() {
        currentPage := 1;
      }
    }

    /** `goToPage(page)`. */
    method GoToPage(page: int)
      modifies this
      ensures items == old(items)
      ensures Valid()
      ensures 1 <= page <= TotalPages() ==> currentPage == page
      ensures page < 1 ==> currentPage == 1
      ensures page > TotalPages() ==> currentPage == TotalPages()
    {
      currentPage := Clamp(page, TotalPages());
    }

    /** `nextPage()`: one page on, but never past the last. */
    method NextPage()
      modifies this
      ensures items == old(items)
      ensures Valid()
      ensures currentPage == Clamp(old(currentPage) + 1, TotalPages())
      ensures 1 <= old(currentPage) < TotalPages() ==> currentPage == old(currentPage) + 1
      ensures old(currentPage) == TotalPages() ==> currentPage == old(currentPage)
    {
      GoToPage(currentPage + 1);
    }

    /** `prevPage()`: one page back, but never before the first. */
    method PrevPage()
      modifies this
      ensures items == old(items)
      ensures Valid()
      ensures currentPage == Clamp(old(currentPage) - 1, TotalPages())
      ensures 1 < old(currentPage) <= TotalPages() ==> currentPage == old(currentPage) - 1
      ensures old(currentPage) == 1 ==> currentPage == 1
    {
      GoToPage(currentPage - 1);
    }

    method GoToFirstPage()
      modifies this
      ensures items == old(items) && currentPage == 1
      ensures Valid()
    {
      currentPage := 1;
    }

    method GoToLastPage()
      modifies this
      ensures items == old(items) && currentPage == TotalPages() && !HasNextPage()
      ensures Valid()
    {
      currentPage := TotalPages();
    }

    /** The raw `setCurrentPage` the hook also returns, followed by the render
        it triggers: the reset memo, which depends on `currentPage`, sends a
        page past the last back to page 1. A page below 1 is kept as it is. */
    method SetCurrentPage(page: int)
      modifies this
      ensures items == old(items)
      ensures currentPage == if page > TotalPages() then 1 else page
      ensures Valid() <==> page >= 1
    {
      currentPage := if page > TotalPages() then 1 else page;
    }
  }

  /** The state `useServerPagination(totalItems, itemsPerPage)` keeps. The
      total is a prop: the page count follows it on every render, while the
      current page is state that nothing resets. */
  class ServerPager {
    var totalItems: nat
    const itemsPerPage: PageSize
    var currentPage: int

    constructor(total: nat, perPage: PageSize)
        ensures totalItems == total && itemsPerPage == perPage && currentPage == 1
        ensures Valid()
    {
      totalItems := total;
      itemsPerPage := perPage;
      currentPage := 1;
    }

    /** The current page is one of the pages. */
    predicate Valid()
      reads this
    {
      1 <= currentPage <= TotalPages()
    }

    /** `Math.max(1, Math.ceil(totalItems / itemsPerPage))`. */
    function TotalPages(): (t: nat)
      reads this
      ensures t >= 1
      ensures totalItems <= t * itemsPerPage
      ensures t == 1 || (t - 1) * itemsPerPage < totalItems
    {
      PageCount(totalItems, itemsPerPage)
    }

    /** `hasNextPage`: from page 1 on, exactly when the server holds items
        past the current page. */
    function HasNextPage(): (b: bool)
      reads this
      ensures currentPage >= 1 ==> (b <==> currentPage * itemsPerPage < totalItems)
    {
      NextPageIffMore(totalItems, currentPage, itemsPerPage);
      currentPage < TotalPages()
    }

    /** `hasPrevPage`: exactly when items lie before the current page. */
    function HasPrevPage(): (b: bool)
      reads this
      ensures b <==> (currentPage - 1) * itemsPerPage > 0
    {
      if currentPage > 1 then
        MulMonotone(1, currentPage - 1, itemsPerPage);
        true
      else
        MulMonotone(currentPage - 1, 0, itemsPerPage);
        false
    }

    /** A new `totalItems` prop. The page is kept as it is, so a shrinking
        total can leave it past the last page: then there is no next page but
        there is a previous one. */
    method SetTotalItems(n: nat)
      modifies this
      ensures totalItems == n && currentPage == old(currentPage)
      ensures Valid() <==> 1 <= old(currentPage) <= TotalPages()
      ensures old(currentPage) > TotalPages() ==> !Valid() && !HasNextPage() && HasPrevPage()
    {
      totalItems := n;
    }

    /** `goToPage(page)`. */
    method GoToPage(page: int)
      modifies this
      ensures totalItems == old(totalItems)
      ensures Valid()
      ensures 1 <= page <= TotalPages() ==> currentPage == page
      ensures page < 1 ==> currentPage == 1
      ensures page > TotalPages() ==> currentPage == TotalPages()
    {
      currentPage := Clamp(page, TotalPages());
    }

    /** `nextPage()`, that is `goToPage(currentPage + 1)`. */
    method NextPage()
      modifies this
      ensures totalItems == old(totalItems)
      ensures Valid()
      ensures currentPage == Clamp(old(currentPage) + 1, TotalPages())
    {
      GoToPage(currentPage + 1);
    }

    /** `prevPage()`, that is `goToPage(currentPage - 1)`: from a page left
        past the end by a shrinking total, the last page. */
    method PrevPage()
      modifies this
      ensures totalItems == old(totalItems)
      ensures Valid()
      ensures currentPage == Clamp(old(currentPage) - 1, TotalPages())
      ensures old(currentPage) > TotalPages() ==> currentPage == TotalPages()
    {
      GoToPage(currentPage - 1);
    }
  }
}
