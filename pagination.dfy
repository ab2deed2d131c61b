// The SimplePagination helper of ai_scholar/endpoints/history.py: 20
// entries per page, the page count, the neighbour links, the window of
// page numbers offered, and which entries a page shows.

module Pagination {
  import opened Base

  const PerPage := 20

  datatype Page<T> = Page(items: seq<T>, page: int, perPage: int, total: int, pages: int,
                          hasPrev: bool, hasNext: bool, prevNum: Option<int>, nextNum: Option<int>)

  /** `(total + per_page - 1) // per_page`: floor division, as Python does for a positive divisor. */
  function PageCount(total: int, perPage: int): (pages: int)
    requires perPage > 0
  {
    (total + perPage - 1) / perPage
  }

  /** The page count is the ceiling of total / per_page: the fewest pages that hold every entry. */
  lemma PageCountCeiling(total: int, perPage: int)
    requires perPage > 0 && total >= 0
    ensures var pages := PageCount(total, perPage);
      pages >= 0 && total <= pages * perPage && (total > 0 ==> (pages - 1) * perPage < total) &&
      (total == 0 ==> pages == 0)
  {
    var q := (total + perPage - 1) / perPage;
    var r := (total + perPage - 1) % perPage;
    assert total + perPage - 1 == q * perPage + r && 0 <= r < perPage;
    assert q * perPage == total + perPage - 1 - r;
    assert (q - 1) * perPage == total - 1 - r;
  }

  /** SimplePagination.__init__. */
  function Paginate<T>(items: seq<T>, page: int, perPage: int, total: int): (r: Page<T>)
    requires perPage > 0
  {
    var pages := PageCount(total, perPage);
    Page(items, page, perPage, total, pages, page > 1, page < pages,
         if page > 1 then Some(page - 1) else None, if page < pages then Some(page + 1) else None)
  }

  /**
   * The links only ever point at real pages: a previous page is offered
   * exactly when the page is past the first, a next page exactly when it
   * is before the last, each carries its number, and the page count is
   * the ceiling of total / per_page.
   */
  lemma PaginateLinks<T>(items: seq<T>, page: int, perPage: int, total: int)
    requires perPage > 0 && total >= 0
    ensures var r := Paginate(items, page, perPage, total);
      (r.hasPrev <==> r.prevNum.Some?) && (r.hasNext <==> r.nextNum.Some?) &&
      (r.prevNum.Some? ==> r.prevNum.value == page - 1 && 1 <= r.prevNum.value) &&
      (r.nextNum.Some? ==> r.nextNum.value == page + 1 && r.nextNum.value <= r.pages) &&
      (1 <= page <= r.pages ==> (r.hasPrev <==> page != 1) && (r.hasNext <==> page != r.pages)) &&
      r.total <= r.pages * perPage && (r.total > 0 ==> (r.pages - 1) * perPage < r.total)
  {
    PageCountCeiling(total, perPage);
  }

  /** `range(lo, hi)`. */
  function Range(lo: int, hi: int): (r: seq<int>)
    ensures |r| == if lo < hi then hi - lo else 0
    ensures forall i :: 0 <= i < |r| ==> r[i] == lo + i
    decreases hi - lo
  {
    if lo >= hi then [] else [lo] + Range(lo + 1, hi)
  }

  function Max(a: int, b: int): int { if a >= b then a else b }
  function Min(a: int, b: int): int { if a <= b then a else b }

  /** iter_pages: `range(max(1, page - 2), min(pages + 1, page + 3))`. */
  function IterPages<T>(p: Page<T>): seq<int>
  {
    Range(Max(1, p.page - 2), Min(p.pages + 1, p.page + 3))
  }

  /**
   * The offered page numbers are the consecutive pages from max(1, page-2)
   * to min(pages, page+2): at most five, all real pages, and the current
   * page among them exactly when it is a real page.
   */
  lemma IterPagesWindow<T>(p: Page<T>)
    ensures var r := IterPages(p);
      |r| <= 5 &&
      (forall i :: 0 <= i < |r| ==> 1 <= r[i] <= p.pages && p.page - 2 <= r[i] <= p.page + 2) &&
      (forall i :: 0 <= i < |r| - 1 ==> r[i + 1] == r[i] + 1) &&
      (p.page in r <==> 1 <= p.page <= p.pages) &&
      (r != [] ==> r[0] == Max(1, p.page - 2) && r[|r| - 1] == Min(p.pages, p.page + 2))
  {
    var r := IterPages(p);
    if 1 <= p.page <= p.pages {
      assert r[p.page - Max(1, p.page - 2)] == p.page;
    }
  }

  /** `.offset((page - 1) * per_page).limit(per_page)` over the ordered rows, for a page from 1 on. */
  function PageItems<T>(all: seq<T>, page: int): (r: seq<T>)
    requires page >= 1
  {
    var off := (page - 1) * PerPage;
    if off >= |all| then [] else all[off..Min(off + PerPage, |all|)]
  }

  /** The first `k` pages, one after another. */
  function FirstPages<T>(all: seq<T>, k: nat): seq<T>
  {
    if k == 0 then [] else FirstPages(all, k - 1) + PageItems(all, k)
  }

  /** The first `k` pages are exactly the first `k * 20` rows. */
  lemma {:induction false} FirstPagesPrefix<T>(all: seq<T>, k: nat)
    ensures FirstPages(all, k) == all[..Min(k * PerPage, |all|)]
  {
    if k > 0 {
      FirstPagesPrefix(all, k - 1);
      var off := (k - 1) * PerPage;
      if off < |all| {
        assert all[..off] + all[off..Min(off + PerPage, |all|)] == all[..Min(k * PerPage, |all|)];
      }
    }
  }

  /** Pages 1..pages shown in turn list every row exactly once, in order, and no page holds more than 20. */
  lemma PagesCoverAll<T>(all: seq<T>)
    ensures FirstPages(all, PageCount(|all|, PerPage)) == all
    ensures forall page :: page >= 1 ==> |PageItems(all, page)| <= PerPage
  {
    var pages := PageCount(|all|, PerPage);
    PageCountCeiling(|all|, PerPage);
    FirstPagesPrefix(all, pages);
  }
}
