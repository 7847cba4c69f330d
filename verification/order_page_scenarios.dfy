/** Concrete order lists and pages from the repository's documentation and tests. */
module OrderPageScenarios {
  import opened Wrappers
  import opened QueryBuilder
  import opened Ordering
  import opened Pagination

  /** `{ '+a', '-b' }` orders by a ascending, then b descending; an unsigned column takes the default. */
  lemma OrderExamples()
    ensures OrderCalls(["+a", "-b"], Asc) == [OrderBy("a", Asc), OrderBy("b", Desc)]
    ensures OrderCalls(["a"], DefaultOrderDirection) == [OrderBy("a", Asc)]
  {
    OrderCallsPointwise(["+a", "-b"], Asc);
    assert "+a"[1..] == "a" && "-b"[1..] == "b";
  }

  /** With `delta` 1, page 1 starts at row 0 and page 2 at row 100; page -1 is page 1. */
  lemma PagesFromOne()
    ensures PaginationCalls(Some(1), Some(100), 1, DefaultPageSize) == [Limit(100), Offset(0)]
    ensures PaginationCalls(Some(2), Some(100), 1, DefaultPageSize) == [Limit(100), Offset(100)]
    ensures PaginationCalls(Some(-1), Some(100), 1, DefaultPageSize) == [Limit(100), Offset(0)]
  {
    LowPagesClamped(1, 100, 1);
    OffsetSkipsEarlierPages(1, 100, 1);
    LowPagesClamped(-1, 100, 1);
  }

  /** With `delta` 0, page 0 starts at row 0 and page 1 at row 100. */
  lemma PagesFromZero()
    ensures PaginationCalls(Some(0), Some(100), 0, DefaultPageSize) == [Limit(100), Offset(0)]
    ensures PaginationCalls(Some(1), Some(100), 0, DefaultPageSize) == [Limit(100), Offset(100)]
  {
  }

  /** With nothing given and the initial settings: 15 rows from row 0. */
  lemma DefaultPage()
    ensures PaginationCalls(None, None, DefaultDelta, DefaultPageSize) == [Limit(15), Offset(0)]
  {
    LowPagesClamped(DefaultDelta, DefaultPageSize, DefaultDelta);
  }
}
