/** The pager under every list: how many pages there are, the numbered
    buttons, the previous/next guards, and the slice of rows one page shows. */
module Pagination {
  import opened Common

  /** The number of pages: enough to hold every row, and never fewer than one. */
  function TotalPages(total: nat, pageSize: nat): (tp: nat)
    requires pageSize > 0
    ensures tp >= 1
    ensures total <= tp * pageSize
    ensures tp == 1 || (tp - 1) * pageSize < total
  {
    var ceil := (total + pageSize - 1) / pageSize;
    CeilDivBounds(total, pageSize);
    if ceil < 1 then 1 else ceil
  }

  lemma CeilDivBounds(total: nat, pageSize: nat)
    requires pageSize > 0
    ensures total <= ((total + pageSize - 1) / pageSize) * pageSize
    ensures ((total + pageSize - 1) / pageSize) == 0 || (((total + pageSize - 1) / pageSize) - 1) * pageSize < total
  {
    var n := total + pageSize - 1;
    var q := n / pageSize;
    var r := n % pageSize;
    assert n == q * pageSize + r && 0 <= r < pageSize;
    assert (q - 1) * pageSize == q * pageSize - pageSize;
  }

  /** The numbered buttons, 1 up to the page count, built one at a time. */
  method Pages(totalPages: nat) returns (pages: seq<int>)
    ensures |pages| == totalPages
    ensures forall k :: 0 <= k < |pages| ==> pages[k] == k + 1
    ensures forall p :: p in pages <==> 1 <= p <= totalPages
  {
    pages := [];
    var i := 1;
    while i <= totalPages
      invariant 1 <= i <= totalPages + 1
      invariant |pages| == i - 1
      invariant forall k :: 0 <= k < |pages| ==> pages[k] == k + 1
    {
      pages := pages + [i];
      i := i + 1;
    }
    forall p | 1 <= p <= totalPages
      ensures p in pages
    {
      assert pages[p - 1] == p;
    }
  }

  /** The page the Prev button asks for, if any. */
  function Prev(page: int): (r: Option<int>)
    ensures r.Some? <==> page > 1
    ensures r.Some? ==> r.value == page - 1
  {
    if page > 1 then Some(page - 1) else None
  }

  /** The page the Next button asks for, if any. */
  function Next(page: int, totalPages: nat): (r: Option<int>)
    ensures r.Some? <==> page < totalPages
    ensures r.Some? ==> r.value == page + 1
  {
    if page < totalPages then Some(page + 1) else None
  }

  /** From a page in range, Prev and Next only ask for pages in range. */
  lemma PrevNextStayInRange(page: int, totalPages: nat)
    requires 1 <= page <= totalPages
    ensures Prev(page).Some? ==> 1 <= Prev(page).value <= totalPages
    ensures Next(page, totalPages).Some? ==> 1 <= Next(page, totalPages).value <= totalPages
  {
  }

  /** Which numbered buttons are marked active. */
  function ActiveMarks(pages: seq<int>, page: int): (marks: seq<bool>)
    ensures |marks| == |pages|
    ensures forall k :: 0 <= k < |pages| ==> (marks[k] <==> pages[k] == page)
  {
    seq(|pages|, k requires 0 <= k < |pages| => pages[k] == page)
  }

  /** With the buttons numbered 1..totalPages and the page in range, exactly
      the page's own button is active. */
  lemma ExactlyOneActive(pages: seq<int>, page: int)
    requires forall k :: 0 <= k < |pages| ==> pages[k] == k + 1
    requires 1 <= page <= |pages|
    ensures ActiveMarks(pages, page)[page - 1]
    ensures forall k :: 0 <= k < |pages| && k != page - 1 ==> !ActiveMarks(pages, page)[k]
  {
  }

  // ---------------------------------------------------------------------------
  // Page slices

  /** How a list slice reads an index: negative counts from the
      end, and the result is clamped to [0, len]. */
  function SliceIndex(i: int, len: nat): (j: nat)
    ensures j <= len
    ensures 0 <= i <= len ==> j == i
    ensures i > len ==> j == len
    ensures i < 0 ==> j == if len + i < 0 then 0 else len + i
  {
    if i < 0 then (if len + i < 0 then 0 else len + i) else if i > len then len else i
  }

  /** At most `size` rows from position `start` on. */
  function Window<T>(rows: seq<T>, start: int, size: nat): (r: seq<T>)
    ensures |r| <= size
    ensures forall k :: 0 <= k < |r| ==> r[k] in rows
    ensures 0 <= start <= |rows| ==> r == rows[start..if start + size <= |rows| then start + size else |rows|]
    ensures start >= |rows| ==> r == []
  {
    var from := SliceIndex(start, |rows|);
    var to := SliceIndex(start + size, |rows|);
    if from < to then rows[from..to] else []
  }

  /** The rows of page `page` (counted from 1). */
  function PageData<T>(rows: seq<T>, page: int, pageSize: nat): (r: seq<T>)
    ensures |r| <= pageSize
    ensures forall k :: 0 <= k < |r| ==> r[k] in rows
    ensures page >= 1 ==> var start := (page - 1) * pageSize;
              start >= 0
              && (start <= |rows| ==> r == rows[start..if start + pageSize <= |rows| then start + pageSize else |rows|])
              && (start >= |rows| ==> r == [])
  {
    StartNonNegative(page, pageSize);
    Window(rows, (page - 1) * pageSize, pageSize)
  }

  /** Row `q * pageSize + r` (with `r < pageSize`) is entry `r` of page
      `q + 1`, and that page is one the pager offers. */
  lemma RowOnItsPage<T>(rows: seq<T>, pageSize: nat, q: nat, r: nat)
    requires r < pageSize && q * pageSize + r < |rows|
    ensures q + 1 <= TotalPages(|rows|, pageSize)
    ensures r < |PageData(rows, q + 1, pageSize)|
    ensures PageData(rows, q + 1, pageSize)[r] == rows[q * pageSize + r]
  {
    var lo := q * pageSize;
    assert (q + 1 - 1) * pageSize == lo;
    MulStrict(q, TotalPages(|rows|, pageSize), pageSize);
  }

  lemma StartNonNegative(page: int, pageSize: nat)
    ensures page >= 1 ==> (page - 1) * pageSize >= 0
  {
    if page >= 1 {
      MulMonotone(0, page - 1, pageSize);
    }
  }

  lemma MulStrict(a: nat, b: nat, c: nat)
    requires a * c < b * c
    ensures a < b
  {
    if a >= b {
      MulMonotone(b, a, c);
    }
  }

  lemma MulMonotone(a: nat, b: nat, c: nat)
    requires a <= b
    ensures a * c <= b * c
  {
  }
}
