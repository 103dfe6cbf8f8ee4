/** The pagination arithmetic shared by `GET /api/members` and `POST /api/search`:
    the row offset of a page, the page count and the next/previous flags of the response. */
module Pagination {
  import opened Sql

  /** Rows skipped before page `page` (pages are numbered from 1; nothing clamps them). */
  function Offset(page: int, limit: int): int
  {
    (page - 1) * limit
  }

  /** `Math.ceil(total / limit)` for a positive page size: the fewest pages that hold `total` rows. */
  function TotalPages(total: nat, limit: int): (pages: nat)
    requires limit > 0
    ensures (pages - 1) * limit < total <= pages * limit
  {
    var q := (total + limit - 1) / limit;
    var r := (total + limit - 1) % limit;
    assert q * limit + r == total + limit - 1;
    assert (q - 1) * limit == q * limit - limit;
    q
  }

  /** The `pagination` object of both responses. */
  datatype PageInfo = PageInfo(
    currentPage: int,
    totalPages: nat,
    totalItems: nat,
    itemsPerPage: int,
    hasNext: bool,
    hasPrev: bool)

  function Paginate(page: int, limit: int, total: nat): (p: PageInfo)
    requires limit > 0
    ensures p.currentPage == page && p.itemsPerPage == limit && p.totalItems == total
    ensures p.totalPages == TotalPages(total, limit)
    ensures p.hasNext <==> page < p.totalPages
    ensures p.hasPrev <==> page > 1
  {
    var pages := TotalPages(total, limit);
    PageInfo(page, pages, total, limit, page < pages, page > 1)
  }

  /** There is a next page exactly when the rows before it are fewer than the total. */
  lemma HasNextMeaning(page: int, limit: int, total: nat)
    requires limit > 0
    ensures Paginate(page, limit, total).hasNext <==> page * limit < total
  {
    var pages: int := TotalPages(total, limit);
    if page < pages {
      MulMonotone(page, pages - 1, limit);
    } else {
      MulMonotone(pages, page, limit);
    }
  }

  lemma MulMonotone(a: int, b: int, c: int)
    requires a <= b && c >= 0
    ensures a * c <= b * c
  {
    var d := b - a;
    assert d * c >= 0;
    assert b * c == a * c + d * c;
  }

  lemma MulPredecessor(n: int, c: int)
    ensures (n - 1) * c == n * c - c
  {
  }

  /** There is a next page exactly when the window the next page asks for holds a row. Below
      page 0 the flag is always set and the window starts at row 0, so the two part only when
      there are no rows at all. */
  lemma HasNextWindow<T>(rows: seq<T>, page: int, limit: int)
    requires limit > 0 && (page >= 0 || |rows| > 0)
    ensures Paginate(page, limit, |rows|).hasNext <==> Window(rows, limit, Offset(page + 1, limit)) != []
  {
    HasNextMeaning(page, limit, |rows|);
    var offset := Offset(page + 1, limit);
    assert offset == page * limit;
    var w := Window(rows, limit, offset);
    if page < 0 {
      MulMonotone(page, 0, limit);
      assert |w| > 0;
    } else if offset < |rows| {
      assert |w| > 0;
    } else {
      assert |w| == 0;
    }
  }

  /** No rows: no pages, and a next page only for a negative page number, which nothing rejects. */
  lemma EmptyTotal(page: int, limit: int)
    requires limit > 0
    ensures Paginate(page, limit, 0).totalPages == 0
    ensures Paginate(page, limit, 0).hasNext <==> page < 0
  {
  }

  /** The first page has no previous page and starts at the first row. */
  lemma FirstPage(limit: int, total: nat)
    requires limit > 0
    ensures !Paginate(1, limit, total).hasPrev
    ensures Offset(1, limit) == 0
  {
  }

  /** Page 1 of 30 rows at 25 per page: two pages, a next page and no previous one. */
  lemma FirstOfTwoPages()
    ensures var p := Paginate(1, 25, 30);
      p == PageInfo(1, 2, 30, 25, true, false)
  {
    assert TotalPages(30, 25) == 2;
  }

  /** The concatenated windows of pages 1 to `n`. */
  function Pages<T>(rows: seq<T>, limit: int, n: nat): seq<T>
  {
    if n == 0 then [] else Pages(rows, limit, n - 1) + Window(rows, limit, Offset(n, limit))
  }

  function Min(a: int, b: int): int {
    if a < b then a else b
  }

  lemma SliceJoin<T>(rows: seq<T>, i: int, j: int)
    requires 0 <= i <= j <= |rows|
    ensures rows[..i] + rows[i..j] == rows[..j]
  {
  }

  /** The first `n` pages are the first `n * limit` rows (`e` is `n * limit`). */
  lemma {:induction false} PagesPrefix<T>(rows: seq<T>, limit: int, n: nat, e: int)
    requires limit > 0 && e == n * limit
    ensures Pages(rows, limit, n) == rows[..Min(e, |rows|)]
  {
    if n > 0 {
      MulPredecessor(n, limit);
      var before := e - limit;
      assert Offset(n, limit) == before;
      MulMonotone(0, n - 1, limit);
      PagesPrefix(rows, limit, n - 1, before);
      WindowFrom(rows, limit, before);
      SliceJoin(rows, Min(before, |rows|), Min(e, |rows|));
    }
  }

  /** From a non-negative offset, a window of a positive size is the slice between the clamped ends. */
  lemma WindowFrom<T>(rows: seq<T>, limit: int, offset: int)
    requires limit > 0 && offset >= 0
    ensures var start := if offset > |rows| then |rows| else offset;
      var end := if offset + limit > |rows| then |rows| else offset + limit;
      Window(rows, limit, offset) == rows[start..end]
  {
  }

  /** Walking pages 1 to `totalPages` returns every row once, in order. */
  lemma PagesCoverRows<T>(rows: seq<T>, limit: int)
    requires limit > 0
    ensures Pages(rows, limit, Paginate(1, limit, |rows|).totalPages) == rows
  {
    var pages := TotalPages(|rows|, limit);
    PagesPrefix(rows, limit, pages, pages * limit);
    assert rows[..|rows|] == rows;
  }
}
