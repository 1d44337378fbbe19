/** Page arithmetic shared by the vendor list, the staff list and the job
  * list: the inclusive row range requested for a page and the page count
  * `Math.ceil(count / limit)`. */
module Paging {

  import opened Text

  /** A list query as sent to the database: the optional text filter and the
    * inclusive row range. */
  datatype Query = Query(search: Option<string>, start: int, end: int)

  /** First row index requested for `page`: `(page - 1) * limit`. */
  function RangeStart(page: int, limit: int): int
  {
    (page - 1) * limit
  }

  /** Last row index requested, inclusive: `start + limit - 1`. */
  function RangeEnd(page: int, limit: int): int
  {
    RangeStart(page, limit) + limit - 1
  }

  /** The range of a page holds `limit` rows and the next page starts right after it. */
  lemma RangeTiles(page: int, limit: int)
    ensures RangeEnd(page, limit) - RangeStart(page, limit) + 1 == limit
    ensures RangeStart(page + 1, limit) == RangeEnd(page, limit) + 1
  {
    assert page * limit == (page - 1) * limit + limit;
  }

  /** With a positive limit, row `i` is requested by exactly one page: page `i / limit + 1`. */
  lemma RowOnOnePage(i: nat, page: int, limit: int)
    requires limit > 0
    ensures RangeStart(page, limit) <= i <= RangeEnd(page, limit) <==> page == i / limit + 1
  {
    var q := i / limit;
    assert q * limit <= i < (q + 1) * limit by {
      assert i == q * limit + i % limit;
      assert (q + 1) * limit == q * limit + limit;
    }
    var start := (page - 1) * limit;
    assert RangeEnd(page, limit) == start + limit - 1;
    if page <= q {
      ScaleMonotone(page, q, limit);
      assert start + limit == page * limit;
    } else if page >= q + 2 {
      ScaleMonotone(q + 1, page - 1, limit);
    }
  }

  lemma ScaleMonotone(a: int, b: int, k: nat)
    requires a <= b
    ensures a * k <= b * k
  {
    var d := b - a;
    assert b * k == a * k + d * k;
  }

  /** `Math.ceil(n / d)` for a row count `n`, as it reaches the JSON reply:
    * `null` when `d` is 0 (the quotient is Infinity or NaN). */
  function CeilDiv(n: nat, d: int): (r: Option<int>)
    ensures r.None? <==> d == 0
    ensures d > 0 ==> (r.value - 1) * d < n <= r.value * d
    ensures d < 0 ==> r.value * d <= n < (r.value - 1) * d
  {
    if d == 0 then None
    else if d > 0 then
      var q := (n + d - 1) / d;
      assert n + d - 1 == q * d + (n + d - 1) % d;
      Some(q)
    else
      var q := n / -d;
      assert n == q * -d + n % -d;
      Some(-q)
  }

  /** The page count of a list page with a positive page size: the fewest
    * pages of `limit` rows that hold `n` rows. */
  function PageCount(n: nat, limit: int): (r: nat)
    requires limit > 0
    ensures r == 0 <==> n == 0
    ensures (r - 1) * limit < n <= r * limit
    ensures CeilDiv(n, limit) == Some(r)
  {
    var q := (n + limit - 1) / limit;
    assert n + limit - 1 == q * limit + (n + limit - 1) % limit;
    q
  }

  /** With a positive limit the page count is the page of the last row, so
    * pages 1..count hold every row and no later page holds any. */
  lemma PageCountIsLastRowsPage(n: nat, limit: int)
    requires limit > 0
    ensures n == 0 ==> CeilDiv(n, limit) == Some(0)
    ensures n > 0 ==> CeilDiv(n, limit) == Some((n - 1) / limit + 1)
  {
    if n > 0 {
      RowOnOnePage(n - 1, CeilDiv(n, limit).value, limit);
    }
  }
}
