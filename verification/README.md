# dequery: filter, order and paginate, modelled in Dafny

dequery translates plain JavaScript values into calls on a SQL query builder (Knex-like):

- `filter(builder, filterObject)` walks the filter object's own keys in order. Each key makes
  at most one builder call:
  - One of the five group names (`or`, `and`, `not`, `and_not`, `or_not`) makes a grouped call.
    Its callback filters the key's value, recursively, on the sub-builder it is given.
  - Any other key is split on `"__"` into `column__operator` or `prefix__column__operator`.
    It goes to `filterOperator`, OR-combined exactly when the prefix is `"or"`.
  - Keys of any other shape are skipped.
- `filterOperator` chooses one call:
  - a null check when the value is `null`;
  - a membership or range call for `in`, `not_in`, `btw` and `not_btw`;
  - otherwise a comparison. It is plain for an operator of one `"_"`-segment and negated for
    one of two segments, with the symbol taken from the comparison table (`eq` is `=`, …) or
    the segment itself (`like`).
- `order(builder, ...orderStrings)` calls `orderBy` once per string, in order. A leading `+` or
  `-` is removed and chooses `asc` or `desc`; any other string keeps the configurable default
  direction.
- `paginate(builder, page, pageSize)` calls `limit(pageSize)` and then
  `offset((max(delta, page) - delta) * pageSize)`.

The builder is modelled as a recorder: a `Builder` object whose `calls` field is the list of
method calls made on it (`QueryBuilder.Call`). `MethodName` gives the builder method each call
stands for.

Each translator is an imperative method that records calls on a builder. Each is proved
against a pure function of its inputs: `FilterCalls`, `OperatorCalls`, `OrderCalls` and
`PaginationCalls`. The properties the code and its documentation promise are lemmas about those
functions:
- key order is preserved;
- one call per key at most;
- group nesting;
- how a leaf key is read, in both directions;
- each operator's call;
- order strings and their signs;
- page offsets and the page each row falls on.

`split` is JavaScript's `String.prototype.split`. It is modelled once (`StringSplit`) and
characterised completely:
- split then join is the identity;
- every part but the last is a "piece";
- pieces joined by the separator split back into themselves.

The three settings are parameters of the methods. Their initial values are the constants
`Ordering.DefaultOrderDirection`, `Pagination.DefaultDelta` and `Pagination.DefaultPageSize`:
- `order.defaultOrderDirection`;
- `paginate.delta`;
- `paginate.defaultPageSize`.

Where the repository's tests and doc comments differ from the code, the model follows the code:
- The ordering test (tests/index.test.ts:44) orders by `hello__asc` and `hey__desc`. The code
  only understands a leading sign (`-column`), so `"hey__desc"` is ordered by the column
  `"hey__desc"` in the default direction.
- The doc comment of `paginate` (src/index.ts:151-153) shows no offset for pages up to
  `delta`. The code (src/index.ts:175) always calls `offset`, with offset 0 for those pages.

## Model

| member | source | states |
|---|---|---|
| StringSplit.IndexOf | src/index.ts:64 | a match it reports lies at or after `from` and within the string |
| StringSplit.IndexOfFirst | src/index.ts:64 | the reported position is a match of the separator, and no match lies between `from` and it (or anywhere after `from` when none is reported) |
| StringSplit.Split | src/index.ts:64 | `split` never returns an empty list |
| StringSplit.JoinSplit | src/index.ts:64 | joining the parts of a split with the separator gives back the original key |
| StringSplit.JoinTwo | src/index.ts:64 | two parts join around one separator |
| StringSplit.JoinThree | src/index.ts:64 | three parts join around two separators |
| StringSplit.BeforeFirstMatchIsPiece | src/index.ts:64 | the text before the first match is a piece: no match starts inside it |
| StringSplit.SplitPieces | src/index.ts:64 | every part but the last has no separator match starting inside it, and the last part contains no separator: splits cut at leftmost, non-overlapping matches |
| StringSplit.FirstMatchAfterPiece | src/index.ts:64 | in `p + sep + t` with `p` a piece, the first separator is the one right after `p` |
| StringSplit.SplitJoin | src/index.ts:64 | pieces joined with the separator split back into exactly those pieces |
| QueryBuilder.MethodName | src/index.ts:209-238 | the definition: the builder method a call invokes, named as in the tables at src/index.ts:15-39 and the builder interfaces |
| QueryBuilder.Builder.constructor | src/index.ts:62 | the builder handed to a group callback starts with no calls |
| QueryBuilder.Builder.Record | src/index.ts:209-238 | a builder method call appends exactly that call and changes nothing else |
| Filtering.Comparator | src/index.ts:102 | the definition: the comparison table's symbol for a segment, or the segment itself |
| Filtering.ParseKey | src/index.ts:61-71 | the definition: a group name first, then a split on `"__"` into a two-part or three-part leaf (OR-combined for the prefix `or`), anything else malformed |
| Filtering.OperatorCalls | src/index.ts:84-113 | the definition: the null check, then the range table, then a plain or negated comparison by the number of `"_"`-parts |
| Filtering.EntryCalls | src/index.ts:59-72 | the definition: the one grouped call of a group key, the `OperatorCalls` of a leaf key, nothing for any other key |
| Filtering.EntriesCalls | src/index.ts:59-73 | the definition: the calls of the keys, key after key |
| Filtering.FilterCalls | src/index.ts:55-75 | the definition: the calls of an object's keys, none for any other value |
| Filtering.EntriesCallsSnoc | src/index.ts:59-73 | one more key at the end of the object adds that key's calls at the end |
| Filtering.FilterOperator | src/index.ts:77-115 | returns the same builder, with exactly the calls of `OperatorCalls` appended |
| Filtering.Filter | src/index.ts:55-75 | returns the same builder, with the calls of `FilterCalls` appended: nothing for a non-object, key after key for an object |
| Filtering.FilterEntry | src/index.ts:59-72 | one key appends `EntryCalls`: a group key records one grouped call holding what a recursive filter recorded on a fresh builder; a leaf key calls `FilterOperator`; any other key adds nothing |
| FilterProperties.NonObjectFilterIsNoOp | src/index.ts:56-58 | a missing, null or non-object filter makes no call |
| FilterProperties.EntriesCallsAppend | src/index.ts:59-73 | keys are handled in order: the calls of `front + back` are those of `front` followed by those of `back` |
| FilterProperties.SingleEntry | src/index.ts:59-73 | an object with one key makes exactly that key's calls |
| FilterProperties.EntryCallsAtMostOne | src/index.ts:59-72 | one key makes at most one call on the builder it is given |
| FilterProperties.AtMostOneCallPerKey | src/index.ts:59-73 | an object makes no more calls at its own level than it has keys |
| FilterProperties.GroupKeyNames | src/index.ts:15-21 | a key is a group key if and only if it is one of `or`, `and`, `not`, `and_not`, `or_not` |
| FilterProperties.GroupKeyCall | src/index.ts:61-62 | a group key makes one grouped call whose body is the calls of its value: `orWhere`, `andWhere`, `orWhereNot`, or `andWhereNot` for both `not` and `and_not` |
| FilterProperties.NotIsAndNot | src/index.ts:18-19 | `not` and `and_not` produce the same calls for every value |
| FilterProperties.NestingDepth | src/index.ts:61-62 | a filter nested `depth` times under a group key produces exactly `depth` nested groups around the inner filter's calls |
| FilterProperties.GroupNamesHaveNoSeparator | src/index.ts:15-21 | no group name contains `"__"`, so no composed key is taken for a group |
| FilterProperties.ParseLeafKeyOf | src/index.ts:64-71 | `column__operator` and `prefix__column__operator` read back as that column and operator, OR-combined exactly when the prefix is `or` |
| FilterProperties.TwoPartKey | src/index.ts:64-67 | a key of two parts is `column__operator` with a piece for the column and an operator free of `"__"` |
| FilterProperties.ThreePartKey | src/index.ts:64-70 | a key of three parts is `prefix__column__operator` with pieces for prefix and column and an operator free of `"__"` |
| FilterProperties.LeafKeyIsComposed | src/index.ts:64-71 | conversely, every key read as a leaf is such a composition of its column, operator and some prefix |
| FilterProperties.MalformedKeySkipped | src/index.ts:64-71 | a key that is not a group name and splits into neither two nor three parts makes no call |
| FilterProperties.NullValueCall | src/index.ts:85-88 | a null value makes one null check, negated exactly for `is_not` and `ne` (unknown operators fall back to `is`) |
| FilterProperties.RangeOperatorCall | src/index.ts:89-93 | for a non-null value, `in`/`not_in` make a membership call and `btw`/`not_btw` a range call, negated for the `not_` forms, with the value unchanged |
| FilterProperties.NoCharIsPiece | src/index.ts:95 | for a one-character separator, a string without it is a piece |
| FilterProperties.PlainComparison | src/index.ts:99-105 | an operator without `"_"` compares with its symbol from the comparison table, or with itself |
| FilterProperties.NegatedComparison | src/index.ts:106-111 | an operator `first_base` makes a negated comparison on `base`, whatever `first` is |
| FilterProperties.LongOperatorIgnored | src/index.ts:95-112 | an operator of three or more `"_"`-parts makes no call for a non-null value |
| FilterScenarios.LeafEntry | src/index.ts:64-70 | a leaf key of words makes the calls `filterOperator` makes for its column and operator |
| FilterScenarios.TwoEntries | src/index.ts:59-73 | a two-key object makes its first key's calls and then its second key's |
| FilterScenarios.ThreeEntries | src/index.ts:59-73 | a three-key object makes its keys' calls in key order |
| FilterScenarios.OneCallEach | src/index.ts:59-73 | three keys of one call each make exactly those three calls, in order |
| FilterScenarios.GroupEntry | src/index.ts:61-62 | a group key's call is the group method of its name around its value's calls |
| FilterScenarios.SplitIsLeftmost | src/index.ts:64 | `"a___b"` splits on `"__"` into `["a", "_b"]` |
| FilterScenarios.SplitEmpty | src/index.ts:95 | the empty operator splits into one empty part |
| FilterScenarios.WordComparison | src/index.ts:99-105 | a leaf key of words with a non-range, one-segment operator is one comparison, OR-combined exactly for the prefix `or` |
| FilterScenarios.WordNegatedComparison | src/index.ts:106-111 | a leaf key whose operator is `first_base` is one negated comparison on `base` |
| FilterScenarios.ColumnEq | tests/index.test.ts:7-10 | `column__eq` is `where("column", "=", value)` |
| FilterScenarios.Column2Like | tests/index.test.ts:13 | `column2__like` is `where("column2", "like", value)` |
| FilterScenarios.MultipleConditions | tests/index.test.ts:12-15 | `{column__eq, column2__like}` is `where "column" = ? and "column2" like ?` |
| FilterScenarios.OrColumn2Like | tests/index.test.ts:17-20 | `or__column2__like` is `orWhere("column2", "like", value)` |
| FilterScenarios.OrPrefixedCondition | tests/index.test.ts:17-20 | `{column__eq, or__column2__like}` is `where "column" = ? or "column2" like ?` |
| FilterScenarios.NotEq | tests/index.test.ts:29-32 | `column__not_eq` is `whereNot("column", "=", value)` |
| FilterScenarios.Ne | src/index.ts:99-105 | `column__ne` is `where("column", "<>", value)`, a different call from `column__not_eq` |
| FilterScenarios.AndPrefixIsAnd | src/index.ts:70 | the prefix `and` combines with AND |
| FilterScenarios.NotGroup | tests/index.test.ts:22-27 | `{not: {...}}` is one `andWhereNot` group around the two inner conditions |
| FilterScenarios.ColumnNull | src/index.ts:85-88 | a null value on `column__operator`, for any operator without `"__"`, checks "column" for null, negated as the null table says |
| FilterScenarios.IsNull | src/index.ts:31 | `column__is: null` is `whereNull("column")` |
| FilterScenarios.IsNotNull | src/index.ts:33 | `column__is_not: null` is `whereNotNull("column")` |
| FilterScenarios.EqNull | src/index.ts:32 | `column__eq: null` is `whereNull("column")` |
| FilterScenarios.NeNull | src/index.ts:34 | `column__ne: null` is `whereNotNull("column")` |
| FilterScenarios.Btw | src/index.ts:89-93 | `column__btw` is `whereBetween("column", value)`, the value passed unchanged |
| FilterScenarios.InList | src/index.ts:89-93 | `column__in` is `whereIn("column", value)`, the value passed unchanged |
| FilterScenarios.OneSegmentKeySkipped | src/index.ts:65-71 | the key `column` (one segment) makes no call |
| FilterScenarios.Column3Eq | tests/index.test.ts:36 | `column3__eq` is `where("column3", "=", value)` |
| FilterScenarios.OrColumn4Eq | tests/index.test.ts:36 | `or__column4__eq` is `orWhere("column4", "=", value)` |
| FilterScenarios.InnerOrCalls | tests/index.test.ts:36 | the inner group's body is `"column3" = ? or "column4" = ?` |
| FilterScenarios.AndBodyCalls | tests/index.test.ts:36 | the `and` body is two comparisons and then an `orWhere` group of the inner filter |
| FilterScenarios.NestedGroups | tests/index.test.ts:34-39 | the nesting test gives one `andWhere` group holding two comparisons and an `orWhere` group of two comparisons |
| Ordering.StripSign | src/index.ts:137 | the definition: the string without one leading `+` or `-` |
| Ordering.SignDirection | src/index.ts:138-139 | the definition: the direction the first character names, else the default |
| Ordering.OrderCalls | src/index.ts:135-141 | the definition: one `orderBy` per string, in order |
| Ordering.Order | src/index.ts:134-143 | returns the same builder, with one `orderBy` per string appended, as `OrderCalls` says |
| Ordering.SignedRoundTrip | src/index.ts:137-139 | a signed column orders by that column in the sign's direction, whatever the default |
| Ordering.SignedOrDefault | src/index.ts:137-139 | every string is either a sign followed by its column, or its own column with the default direction; unsigned and empty strings always take the default |
| Ordering.OrderCallsPointwise | src/index.ts:135-141 | one call per order string, in input order, each with that string's column and direction |
| OrderPageScenarios.OrderExamples | src/index.ts:120-122 | `+a, -b` orders a ascending then b descending; an unsigned column takes the default ascending |
| Pagination.PageOffset | src/index.ts:175 | the definition: `(max(delta, page) - delta) * pageSize` |
| Pagination.PaginationCalls | src/index.ts:171-175 | the definition: `limit` of the size (default size when absent), then `offset` of the page (`delta` when absent) |
| Pagination.Paginate | src/index.ts:169-177 | returns the same builder, with `limit` and then `offset` appended, as `PaginationCalls` says |
| Pagination.LimitThenOffset | src/index.ts:171-175 | always a limit of the page size (or the default size) followed by an offset, and offset 0 when no page is given |
| Pagination.LowPagesClamped | src/index.ts:175 | pages at or below `delta` (zero and negative pages included) start at row 0 |
| Pagination.OffsetSkipsEarlierPages | src/index.ts:175 | page `delta + k` skips exactly `k` pages, so the offset is never negative for a non-negative size |
| Pagination.ConsecutivePages | src/index.ts:175 | each page from `delta` on starts where the previous one ends |
| Pagination.EveryRowOnOnePage | src/index.ts:175 | with a positive size, each row lies on page `delta + row / pageSize` and on no other page from `delta` on |
| OrderPageScenarios.PagesFromOne | src/index.ts:150-154 | with `delta` 1: page 1 is offset 0, page 2 is offset 100, and page -1 is page 1 |
| OrderPageScenarios.PagesFromZero | src/index.ts:155-157 | with `delta` 0: page 0 is offset 0 and page 1 is offset 100 |
| OrderPageScenarios.DefaultPage | src/index.ts:171-181 | with no page, no size and the initial settings: limit 15, offset 0 |

## Left out

- The concrete query builder and the SQL it generates are not modelled. Builder calls are
  recorded, and `MethodName` names the method each call invokes. Knex itself is not part of
  this model.
- Builder methods are assumed to return normally. Exceptions thrown by a builder, and their
  propagation, are not modelled.
- The group callback is modelled as running at once on a fresh builder. The `Group` call then
  records what the callback issued. When and how the builder invokes callbacks is left out.
- Table lookups see only each table's own keys. Keys inherited from `Object.prototype`
  (`constructor`, `toString`, …) would be found by the JavaScript lookups. The resulting
  calls on a function-valued method name are not modelled.
- Values are opaque. Strings, numbers, booleans, dates, arrays and pairs are passed through
  without being inspected, as the code does. Only `null` and "is an object" are distinguished.
- Arrays and `Date` objects given as a whole filter are modelled as non-objects. In JavaScript
  they are objects, but their own keys (`"0"`, `"1"`, …) are neither group names nor
  two- or three-part keys, so they make no call either way.
- Pagination.Paginate: page numbers and sizes are integers. JavaScript numbers (fractions,
  `NaN`, infinities, floating-point rounding of the product) are not modelled. A JavaScript
  default parameter is applied for `undefined` only, which is modelled by `None`.
- Ordering.Order takes the order strings as one list, standing for the rest parameter
  `...orderStrings`.
- The compiled files under `dist/` mirror `src/index.ts` and are not modelled separately.
- The test file calls `applyFiltering`, `applyOrdering` and `applyPagination`, which
  `src/index.ts` does not export. The ordering test's `hello__asc` form and the pagination
  test's object form are not what the code implements, so they are not modelled. Its
  filtering cases are modelled as the FilterScenarios lemmas.
