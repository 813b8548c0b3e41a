/**
 * Client-side pagination shared by the two admin tables: pages of ten rows,
 * `Math.ceil(n / itemsPerPage)` pages, the page slice
 * `xs.slice((p - 1) * itemsPerPage, p * itemsPerPage)`, and the guarded
 * Previous / Next / numbered-link navigation.
 */
module Paging {

  /** `itemsPerPage` of both admin tables. */
  const ItemsPerPage: nat := 10

  function Min(a: int, b: int): int {
    if a <= b then a else b
  }

  /** `Math.ceil(n / ItemsPerPage)`: the fewest pages that hold `n` rows. */
  function TotalPages(n: nat): (r: nat)
    ensures r * ItemsPerPage >= n
    ensures r > 0 ==> (r - 1) * ItemsPerPage < n
    ensures r == 0 <==> n == 0
  {
    (n + ItemsPerPage - 1) / ItemsPerPage
  }

  /**
   * Page `page` (1-based) of `s`: the slice from `(page - 1) * ItemsPerPage`
   * to `page * ItemsPerPage`, both clipped to the length as `slice` does.
   */
  function Page<T>(s: seq<T>, page: int): (r: seq<T>)
    requires page >= 1
    ensures |r| <= ItemsPerPage
    ensures |r| == if |s| <= (page - 1) * ItemsPerPage then 0
                   else Min(ItemsPerPage, |s| - (page - 1) * ItemsPerPage)
    ensures forall i :: 0 <= i < |r| ==> r[i] == s[(page - 1) * ItemsPerPage + i]
  {
    var lo := Min((page - 1) * ItemsPerPage, |s|);
    var hi := Min(page * ItemsPerPage, |s|);
    s[lo..hi]
  }

  /** Pages 1 to `k` laid end to end. */
  function Pages<T>(s: seq<T>, k: nat): seq<T> {
    if k == 0 then [] else Pages(s, k - 1) + Page(s, k)
  }

  /** The first `k` pages are exactly the first `k * ItemsPerPage` rows. */
  lemma {:induction false} PagesPrefix<T>(s: seq<T>, k: nat)
    ensures Pages(s, k) == s[..Min(k * ItemsPerPage, |s|)]
  {
    if k > 0 {
      PagesPrefix(s, k - 1);
      var lo := Min((k - 1) * ItemsPerPage, |s|);
      var hi := Min(k * ItemsPerPage, |s|);
      assert Page(s, k) == s[lo..hi];
      assert s[..lo] + s[lo..hi] == s[..hi];
    }
  }

  /** Pages 1 to `TotalPages` partition the list: together they are the list. */
  lemma PagesPartition<T>(s: seq<T>)
    ensures Pages(s, TotalPages(|s|)) == s
  {
    PagesPrefix(s, TotalPages(|s|));
  }

  /** Row `k` sits on page `k / ItemsPerPage + 1`, at position `k % ItemsPerPage`. */
  lemma PageOfRow<T>(s: seq<T>, k: nat)
    requires k < |s|
    ensures k / ItemsPerPage + 1 <= TotalPages(|s|)
    ensures Page(s, k / ItemsPerPage + 1)[k % ItemsPerPage] == s[k]
  {
  }

  /** A page number beyond `TotalPages` shows nothing; one within it shows something. */
  lemma PageEmptyIffPastEnd<T>(s: seq<T>, page: int)
    requires page >= 1
    ensures Page(s, page) == [] <==> page > TotalPages(|s|)
  {
  }

  /** The pager is rendered only when there is more than one page. */
  predicate ShowsPager(totalPages: int) {
    totalPages > 1
  }

  lemma ShowsPagerIffMoreThanOnePage(n: nat)
    ensures ShowsPager(TotalPages(n)) <==> n > ItemsPerPage
  {
  }

  /** Previous: `currentPage > 1 && handlePageChange(currentPage - 1)`. */
  function AfterPrevious(currentPage: int): (r: int)
    ensures currentPage > 1 ==> r == currentPage - 1
    ensures currentPage <= 1 ==> r == currentPage
  {
    if currentPage > 1 then currentPage - 1 else currentPage
  }

  /** Next: `currentPage < totalPages && handlePageChange(currentPage + 1)`. */
  function AfterNext(currentPage: int, totalPages: int): (r: int)
    ensures currentPage < totalPages ==> r == currentPage + 1
    ensures currentPage >= totalPages ==> r == currentPage
  {
    if currentPage < totalPages then currentPage + 1 else currentPage
  }

  /**
   * The guards keep the page number at least 1, never move it past the last
   * page, and keep it in `1..totalPages` once it is there.
   */
  lemma NavigationStaysInRange(currentPage: int, totalPages: int)
    requires currentPage >= 1
    ensures AfterPrevious(currentPage) >= 1
    ensures AfterNext(currentPage, totalPages) >= 1
    ensures currentPage <= totalPages ==> AfterPrevious(currentPage) <= totalPages
    ensures currentPage <= totalPages ==> AfterNext(currentPage, totalPages) <= totalPages
    ensures currentPage > totalPages ==> AfterNext(currentPage, totalPages) == currentPage
  {
  }

  /** The numbered links: link `i` (0-based) selects page `i + 1`. */
  function LinkTarget(i: nat, totalPages: nat): (r: int)
    requires i < totalPages
    ensures 1 <= r <= totalPages
  {
    i + 1
  }
}
