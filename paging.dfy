/** The pagination arithmetic of the contacts table: the page count
    `Math.ceil(totalCount / rowsPerPage)`, the "showing X-Y of N" range, the target
    pages of the Previous and Next buttons and when those buttons are live. */
module Paging {

  /** The page sizes offered by the page-size buttons. */
  const PageSizes: set<int> := {25, 50, 100}

  /** `Math.ceil(a / b)` for a positive divisor: the least integer whose multiple of
      `b` reaches `a` (it is 0, not -0, for a small negative `a`). */
  function CeilDiv(a: int, b: int): (r: int)
    requires b > 0
    ensures (r - 1) * b < a <= r * b
  {
    var q := (-a) / b;
    assert q * b <= -a < q * b + b;
    -q
  }

  /** The number of pages. */
  function TotalPages(totalCount: int, rowsPerPage: int): (r: int)
    requires rowsPerPage > 0
  {
    CeilDiv(totalCount, rowsPerPage)
  }

  /** Every count that fits on the pages does, and one page fewer would not hold it. */
  lemma TotalPagesBounds(totalCount: int, rowsPerPage: int)
    requires rowsPerPage > 0
    ensures totalCount <= TotalPages(totalCount, rowsPerPage) * rowsPerPage
    ensures (TotalPages(totalCount, rowsPerPage) - 1) * rowsPerPage < totalCount
    ensures totalCount <= 0 <==> TotalPages(totalCount, rowsPerPage) <= 0
  {
    var t := TotalPages(totalCount, rowsPerPage);
    if t > 0 {
      MulMonotone(0, t - 1, rowsPerPage);
    }
  }

  /** The first row number shown: 0 when the loaded page is empty. */
  function RangeStart(loaded: nat, currentPage: int, rowsPerPage: int): (r: int) {
    if loaded > 0 then (currentPage - 1) * rowsPerPage + 1 else 0
  }

  /** The last row number shown: `Math.min(currentPage * rowsPerPage, totalCount)`. */
  function RangeEnd(currentPage: int, rowsPerPage: int, totalCount: int): (r: int)
    ensures r <= totalCount && r <= currentPage * rowsPerPage
    ensures r == totalCount || r == currentPage * rowsPerPage
  {
    if currentPage * rowsPerPage < totalCount then currentPage * rowsPerPage else totalCount
  }

  /** On a page within the page count, with rows loaded, the range shown is a
      non-empty run of at most one page of rows ending no later than the total. */
  lemma RangeWithinPage(loaded: nat, currentPage: int, rowsPerPage: int, totalCount: int)
    requires rowsPerPage > 0 && loaded > 0
    requires 1 <= currentPage <= TotalPages(totalCount, rowsPerPage)
    ensures 1 <= RangeStart(loaded, currentPage, rowsPerPage) <= RangeEnd(currentPage, rowsPerPage, totalCount) <= totalCount
    ensures RangeEnd(currentPage, rowsPerPage, totalCount) - RangeStart(loaded, currentPage, rowsPerPage) < rowsPerPage
  {
    var t := TotalPages(totalCount, rowsPerPage);
    assert (currentPage - 1) * rowsPerPage <= (t - 1) * rowsPerPage by {
      MulMonotone(currentPage - 1, t - 1, rowsPerPage);
    }
    assert (currentPage - 1) * rowsPerPage + rowsPerPage == currentPage * rowsPerPage;
  }

  /** Multiplying by a non-negative factor keeps the order. */
  lemma MulMonotone(a: int, b: int, c: int)
    requires a <= b && c >= 0
    ensures a * c <= b * c
  {
    assert b * c - a * c == (b - a) * c;
  }

  /** The page the Previous button goes to: `Math.max(1, p - 1)`. */
  function PreviousPage(p: int): (r: int)
    ensures r >= 1
    ensures p > 1 ==> r == p - 1
    ensures p <= 1 ==> r == 1
  {
    if 1 < p - 1 then p - 1 else 1
  }

  /** The page the Next button goes to: `Math.min(totalPages, p + 1)`. */
  function NextPage(p: int, totalPages: int): (r: int)
    ensures r <= totalPages && r <= p + 1
    ensures p < totalPages ==> r == p + 1
    ensures p >= totalPages ==> r == totalPages
  {
    if totalPages < p + 1 then totalPages else p + 1
  }

  /** Next is disabled when `currentPage >= totalPages`. */
  predicate NextEnabled(currentPage: int, totalPages: int) {
    currentPage < totalPages
  }

  /** The button with the following page number is shown when
      `totalPages > 1 && currentPage < totalPages`. */
  predicate FollowingNumberShown(currentPage: int, totalPages: int) {
    totalPages > 1 && currentPage < totalPages
  }

  /** From page 1 on, the following-number button is shown exactly when Next is
      live, and both lead to the same page, which is within the page count. */
  lemma FollowingNumberIsNext(currentPage: int, totalPages: int)
    requires currentPage >= 1
    ensures FollowingNumberShown(currentPage, totalPages) <==> NextEnabled(currentPage, totalPages)
    ensures NextEnabled(currentPage, totalPages) ==>
      NextPage(currentPage, totalPages) == currentPage + 1 && 2 <= currentPage + 1 <= totalPages
  {
  }
}
