/** The pagination window every table renders:
    `rows.slice(page * rowsPerPage, page * rowsPerPage + rowsPerPage)`,
    and the `page`/`rowsPerPage` state behind the table's pagination control. */
module Pagination {

  function Min(a: int, b: int): int { if a <= b then a else b }

  /** JavaScript's `slice(page * rpp, page * rpp + rpp)` on a sequence: both ends
      clamped to the length, so a window past the end is empty, not an error. */
  function Window<T>(rows: seq<T>, page: nat, rpp: nat): (r: seq<T>)
    ensures |r| <= rpp
    ensures page * rpp + rpp <= |rows| ==> |r| == rpp
    ensures page * rpp >= |rows| ==> r == []
    ensures page * rpp < |rows| ==> |r| == Min(rpp, |rows| - page * rpp)
    ensures forall k :: 0 <= k < |r| ==> page * rpp + k < |rows| && r[k] == rows[page * rpp + k]
  {
    rows[Min(page * rpp, |rows|)..Min(page * rpp + rpp, |rows|)]
  }

  /** The first `n` pages laid end to end. */
  function Pages<T>(rows: seq<T>, rpp: nat, n: nat): (r: seq<T>)
    ensures |r| == Min(n * rpp, |rows|)
  {
    if n == 0 then []
    else
      assert (n - 1) * rpp + rpp == n * rpp;
      Pages(rows, rpp, n - 1) + Window(rows, n - 1, rpp)
  }

  /** The first `n` pages are exactly the first `n * rpp` rows (or all of them). */
  lemma {:induction false} PagesArePrefix<T>(rows: seq<T>, rpp: nat, n: nat)
    ensures Pages(rows, rpp, n) == rows[..Min(n * rpp, |rows|)]
  {
    if n > 0 {
      PagesArePrefix(rows, rpp, n - 1);
      var lo, hi := Min((n - 1) * rpp, |rows|), Min(n * rpp, |rows|);
      assert (n - 1) * rpp + rpp == n * rpp;
      assert lo <= hi;
      assert rows[..lo] + rows[lo..hi] == rows[..hi];
    }
  }

  /** Paging through a table shows every row exactly once, in order: once
      the pages cover the table, their concatenation is the table itself. */
  lemma PagesCoverRows<T>(rows: seq<T>, rpp: nat, n: nat)
    requires n * rpp >= |rows|
    ensures Pages(rows, rpp, n) == rows
  {
    PagesArePrefix(rows, rpp, n);
  }

  /** The table's pagination state. The page starts at 0 and five rows are shown. */
  class Pager {
    var page: nat
    var rowsPerPage: nat

    constructor ()
      ensures page == 0 && rowsPerPage == 5
    {
      page := 0;
      rowsPerPage := 5;
    }

    /** `handleChangePage`: moves to the requested page, keeping the page size. */
    method ChangePage(newPage: nat)
      modifies this
      ensures page == newPage && rowsPerPage == old(rowsPerPage)
    {
      page := newPage;
    }

    /** `handleChangeRowsPerPage`: a new page size always sends the table back to page 0. */
    method ChangeRowsPerPage(rpp: nat)
      modifies this
      ensures rowsPerPage == rpp && page == 0
    {
      rowsPerPage := rpp;
      page := 0;
    }

    /** The rows of `rows` the table shows now: the window of the current page. */
    function Visible<T>(rows: seq<T>): (r: seq<T>)
      reads this
      ensures r == Window(rows, page, rowsPerPage)
      ensures |r| <= rowsPerPage
      ensures page * rowsPerPage + rowsPerPage <= |rows| ==> |r| == rowsPerPage
      ensures forall k :: 0 <= k < |r| ==> page * rowsPerPage + k < |rows| && r[k] == rows[page * rowsPerPage + k]
    {
      Window(rows, page, rowsPerPage)
    }
  }
}
