/**
 * `paginate` of src/index.ts: `limit(pageSize)` and then
 * `offset((max(delta, page) - delta) * pageSize)`, always both and in that order.
 *
 * `delta` (the setting `paginate.delta`, 1 or 0) is the lowest meaningful page number; pages
 * at or below it start at row 0. Page numbers and sizes are integers here.
 */
module Pagination {
  import opened Wrappers
  import opened QueryBuilder

  /** The values the setting `paginate.delta` may take. */
  type Delta = d: int | 0 <= d <= 1

  /** The initial value of `paginate.delta`. */
  const DefaultDelta: Delta := 1

  /** The initial value of `paginate.defaultPageSize`. */
  const DefaultPageSize: int := 15

  function Max(a: int, b: int): int {
    if a >= b then a else b
  }

  /** The offset `paginate` passes for a page. */
  function PageOffset(page: int, pageSize: int, delta: Delta): int {
    (Max(delta, page) - delta) * pageSize
  }

  /** The calls `paginate` makes; a missing page is `delta` and a missing size the default size. */
  function PaginationCalls(page: Option<int>, pageSize: Option<int>, delta: Delta, defaultPageSize: int): seq<Call> {
    var p := page.GetOr(delta);
    var size := pageSize.GetOr(defaultPageSize);
    [Limit(size), Offset(PageOffset(p, size, delta))]
  }

  /** `paginate(builder, page, pageSize)` under the settings `delta` and `defaultPageSize`. */
  method Paginate(builder: Builder, page: Option<int>, pageSize: Option<int>, delta: Delta, defaultPageSize: int)
    returns (r: Builder)
    modifies builder
    ensures r == builder
    ensures builder.calls == old(builder.calls) + PaginationCalls(page, pageSize, delta, defaultPageSize)
  {
    r := builder;
    var p := page.GetOr(delta);
    var size := pageSize.GetOr(defaultPageSize);
    builder.Record(Limit(size));
    builder.Record(Offset(PageOffset(p, size, delta)));
  }

  /** Always a limit of the page size followed by an offset; the default page is the first one. */
  lemma LimitThenOffset(page: Option<int>, pageSize: Option<int>, delta: Delta, defaultPageSize: int)
    ensures var calls := PaginationCalls(page, pageSize, delta, defaultPageSize);
      |calls| == 2 && calls[0].Limit? && calls[1].Offset?
      && calls[0].count == (if pageSize.Some? then pageSize.value else defaultPageSize)
      && (page.None? ==> calls[1].count == 0)
  {
  }

  /** Pages at or below `delta` (zero and negative ones included) start at row 0. */
  lemma LowPagesClamped(page: int, pageSize: int, delta: Delta)
    requires page <= delta
    ensures PageOffset(page, pageSize, delta) == 0
  {
  }

  /** Page `delta + k` skips exactly `k` pages, so offsets are never negative for a non-negative size. */
  lemma OffsetSkipsEarlierPages(k: nat, pageSize: int, delta: Delta)
    ensures PageOffset(delta + k, pageSize, delta) == k * pageSize
    ensures pageSize >= 0 ==> PageOffset(delta + k, pageSize, delta) >= 0
  {
  }

  /** Consecutive pages are adjacent: each starts where the one before it ends. */
  lemma ConsecutivePages(page: int, pageSize: int, delta: Delta)
    requires page >= delta
    ensures PageOffset(page + 1, pageSize, delta) == PageOffset(page, pageSize, delta) + pageSize
  {
    assert (page + 1 - delta) * pageSize == (page - delta) * pageSize + pageSize;
  }

  /** The rows a page covers: from its offset, `pageSize` of them. */
  predicate OnPage(row: int, page: int, pageSize: int, delta: Delta) {
    PageOffset(page, pageSize, delta) <= row < PageOffset(page, pageSize, delta) + pageSize
  }

  /** A later page starts no earlier than where an earlier one ends. */
  lemma LaterPageStartsAfter(a: int, b: int, size: int)
    requires a < b && size > 0
    ensures a * size + size <= b * size
  {
    var d := b - a - 1;
    assert b * size == a * size + size + d * size;
    assert d * size >= 0;
  }

  /** With a positive size, every row lies on the page `delta + row / pageSize`, and on no other. */
  lemma EveryRowOnOnePage(row: nat, page: int, pageSize: int, delta: Delta)
    requires pageSize > 0 && page >= delta
    ensures OnPage(row, delta + row / pageSize, pageSize, delta)
    ensures OnPage(row, page, pageSize, delta) ==> page == delta + row / pageSize
  {
    var q := row / pageSize;
    assert row == q * pageSize + row % pageSize;
    OffsetSkipsEarlierPages(q, pageSize, delta);
    var k := page - delta;
    OffsetSkipsEarlierPages(k, pageSize, delta);
    if k < q {
      LaterPageStartsAfter(k, q, pageSize);
    } else if k > q {
      LaterPageStartsAfter(q, k, pageSize);
    }
  }
}
