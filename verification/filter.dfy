/**
 * `filter` and `filterOperator` of src/index.ts: a filter object is walked in key order and
 * each key becomes at most one builder call.
 *
 * A key is either one of the five boolean-group names, whose value is filtered recursively on
 * a fresh sub-builder inside a grouped call, or a leaf key `[prefix__]column__operator` that is
 * resolved through the null, range and comparison tables. `ParseKey` and `OperatorCalls` are
 * the pure decisions, `FilterCalls` the calls a whole filter emits, and the methods `Filter`
 * and `FilterOperator` issue those calls on a builder one after another.
 */
module Filtering {
  import opened Wrappers
  import opened StringSplit
  import opened QueryBuilder

  /** Which grouped builder method a boolean-group key selects. */
  datatype GroupMethod = GroupMethod(isOr: bool, negated: bool)

  /** Which range or membership method an operator selects. */
  datatype RangeKind = Membership | Range
  datatype RangeMethod = RangeMethod(kind: RangeKind, negated: bool)

  /** How a filter key is read. */
  datatype KeyKind =
    | GroupKey(group: GroupMethod)
    | LeafKey(column: string, operator: string, isOr: bool)
    | Malformed

  /** `METHOD_BY_CALLBACK_OPERATOR`: or, and, and_not, not, or_not. */
  const GroupMethods: map<string, GroupMethod> := map[
    "or" := GroupMethod(true, false),
    "and" := GroupMethod(false, false),
    "and_not" := GroupMethod(false, true),
    "not" := GroupMethod(false, true),
    "or_not" := GroupMethod(true, true)
  ]

  /** `METHOD_BY_IS_OR_BY_RANGE_OPERATOR`: in, not_in, btw, not_btw. */
  const RangeMethods: map<string, RangeMethod> := map[
    "in" := RangeMethod(Membership, false),
    "not_in" := RangeMethod(Membership, true),
    "btw" := RangeMethod(Range, false),
    "not_btw" := RangeMethod(Range, true)
  ]

  /** `METHOD_BY_IS_OR_BY_NULL_OPERATOR`, as whether the null check is negated. */
  const NullNegated: map<string, bool> := map[
    "is" := false,
    "eq" := false,
    "is_not" := true,
    "ne" := true
  ]

  /** `BUILDER_OPERATOR_BY_COMPARISON_OPERATOR`. */
  const ComparisonSymbols: map<string, string> := map[
    "eq" := "=",
    "gt" := ">",
    "gte" := ">=",
    "lt" := "<",
    "lte" := "<=",
    "ne" := "<>"
  ]

  /** The comparator token for one operator segment: its symbol, or the segment itself. */
  function Comparator(segment: string): string {
    if segment in ComparisonSymbols then ComparisonSymbols[segment] else segment
  }

  /** Classifies a filter key: a group name, or a key split on "__" into two or three parts. */
  function ParseKey(key: string): KeyKind {
    if key in GroupMethods then GroupKey(GroupMethods[key])
    else
      var parts := Split(key, "__");
      if |parts| == 2 then LeafKey(parts[0], parts[1], false)
      else if |parts| == 3 then LeafKey(parts[1], parts[2], parts[0] == "or")
      else Malformed
  }

  /** The calls `filterOperator` makes for one leaf: at most one. */
  function OperatorCalls(column: string, operator: string, value: FilterValue, isOr: bool): seq<Call> {
    if value.Null? then
      var negated := if operator in NullNegated then NullNegated[operator] else NullNegated["is"];
      [NullCheck(isOr, negated, column)]
    else if operator in RangeMethods then
      var m := RangeMethods[operator];
      [if m.kind == Membership then In(isOr, m.negated, column, value)
       else Between(isOr, m.negated, column, value)]
    else
      var parts := Split(operator, "_");
      if |parts| == 1 then [Compare(isOr, false, column, Comparator(parts[0]), value)]
      else if |parts| == 2 then [Compare(isOr, true, column, Comparator(parts[1]), value)]
      else []
  }

  /** The calls one entry of a filter object emits. */
  function EntryCalls(e: Entry): seq<Call>
    decreases e
  {
    match ParseKey(e.key)
    case GroupKey(m) => [Group(m.isOr, m.negated, FilterCalls(e.value))]
    case LeafKey(column, operator, isOr) => OperatorCalls(column, operator, e.value, isOr)
    case Malformed => []
  }

  /** The calls a sequence of entries emits, entry by entry. */
  function EntriesCalls(entries: seq<Entry>): seq<Call>
    decreases entries
  {
    if entries == [] then []
    else EntriesCalls(entries[..|entries| - 1]) + EntryCalls(entries[|entries| - 1])
  }

  /** The calls `filter` makes: none unless the filter is an object. */
  function FilterCalls(filter: FilterValue): seq<Call>
    decreases filter
  {
    match filter
    case Object(entries) => EntriesCalls(entries)
    case _ => []
  }

  /** Adding one key at the end adds that key's calls at the end. */
  lemma EntriesCallsSnoc(entries: seq<Entry>, e: Entry)
    ensures EntriesCalls(entries + [e]) == EntriesCalls(entries) + EntryCalls(e)
  {
    var all := entries + [e];
    assert all[..|all| - 1] == entries;
    assert all[|all| - 1] == e;
  }

  /** `filterOperator(builder, column, operator, value, isOr)`. */
  method FilterOperator(builder: Builder, column: string, operator: string, value: FilterValue, isOr: bool)
    returns (r: Builder)
    modifies builder
    ensures r == builder
    ensures builder.calls == old(builder.calls) + OperatorCalls(column, operator, value, isOr)
  {
    r := builder;
    if value.Null? {
      var negated := if operator in NullNegated then NullNegated[operator] else NullNegated["is"];
      builder.Record(NullCheck(isOr, negated, column));
    } else if operator in RangeMethods {
      var m := RangeMethods[operator];
      if m.kind == Membership {
        builder.Record(In(isOr, m.negated, column, value));
      } else {
        builder.Record(Between(isOr, m.negated, column, value));
      }
    } else {
      var parts := Split(operator, "_");
      if |parts| == 1 {
        builder.Record(Compare(isOr, false, column, Comparator(parts[0]), value));
      } else if |parts| == 2 {
        builder.Record(Compare(isOr, true, column, Comparator(parts[1]), value));
      }
    }
  }

  /**
   * `filter(builder, filterObject)`: returns the same builder, on which the calls of
   * `FilterCalls(filterObject)` have been made in order.
   */
  method Filter(builder: Builder, filter: FilterValue) returns (r: Builder)
    modifies builder
    ensures r == builder
    ensures builder.calls == old(builder.calls) + FilterCalls(filter)
    decreases filter
  {
    r := builder;
    if !filter.Object? {
      return;
    }
    var entries := filter.entries;
    var i := 0;
    while i < |entries|
      invariant 0 <= i <= |entries|
      invariant builder.calls == old(builder.calls) + EntriesCalls(entries[..i])
    {
      FilterEntry(builder, entries[i]);
      assert entries[..i + 1] == entries[..i] + [entries[i]];
      EntriesCallsSnoc(entries[..i], entries[i]);
      Associate(old(builder.calls), EntriesCalls(entries[..i]), EntryCalls(entries[i]));
      i := i + 1;
    }
    assert entries[..i] == entries;
  }

  /**
   * One pass of the loop in `filter`: a group key runs the filter on a fresh sub-builder and
   * hands what that recorded to the grouped method; a leaf key goes to `FilterOperator`.
   */
  method FilterEntry(builder: Builder, e: Entry)
    modifies builder
    ensures builder.calls == old(builder.calls) + EntryCalls(e)
    decreases e
  {
    match ParseKey(e.key) {
      case GroupKey(m) =>
        var sub := new Builder();
        ghost var before := builder.calls;
        var inner := Filter(sub, e.value);
        assert sub.calls == FilterCalls(e.value);
        assert builder.calls == before;
        builder.Record(Group(m.isOr, m.negated, sub.calls));
        assert EntryCalls(e) == [Group(m.isOr, m.negated, FilterCalls(e.value))];
      case LeafKey(column, operator, isOr) =>
        var same := FilterOperator(builder, column, operator, e.value, isOr);
      case Malformed =>
    }
  }
}
