/**
 * What `filter` promises, stated about the calls it emits (`FilterCalls`, `EntryCalls`,
 * `OperatorCalls`) and about the way it reads keys (`ParseKey`).
 */
module FilterProperties {
  import opened Wrappers
  import opened StringSplit
  import opened QueryBuilder
  import opened Filtering

  /** An absent, null or otherwise non-object filter leaves the builder as it was. */
  lemma NonObjectFilterIsNoOp(filter: FilterValue)
    requires !filter.Object?
    ensures FilterCalls(filter) == []
  {
  }

  /** Keys are handled in order: the calls for `front + back` are those for `front`, then those for `back`. */
  lemma {:induction false} EntriesCallsAppend(front: seq<Entry>, back: seq<Entry>)
    ensures EntriesCalls(front + back) == EntriesCalls(front) + EntriesCalls(back)
    decreases |back|
  {
    if back == [] {
      assert front + back == front;
    } else {
      var init, e := back[..|back| - 1], back[|back| - 1];
      assert back == init + [e];
      assert front + back == (front + init) + [e];
      EntriesCallsAppend(front, init);
      EntriesCallsSnoc(front + init, e);
      EntriesCallsSnoc(init, e);
      Associate(EntriesCalls(front), EntriesCalls(init), EntryCalls(e));
    }
  }

  /** An object of one entry emits exactly that entry's calls. */
  lemma SingleEntry(e: Entry)
    ensures FilterCalls(Object([e])) == EntryCalls(e)
  {
    assert [e][..|[e]| - 1] == [];
    assert EntriesCalls([e]) == EntriesCalls([]) + EntryCalls(e);
  }

  /** Every key makes at most one call at its own level. */
  lemma EntryCallsAtMostOne(e: Entry)
    ensures |EntryCalls(e)| <= 1
  {
  }

  /** So an object never makes more calls at its own level than it has keys. */
  lemma {:induction false} AtMostOneCallPerKey(entries: seq<Entry>)
    ensures |EntriesCalls(entries)| <= |entries|
    decreases |entries|
  {
    if entries != [] {
      AtMostOneCallPerKey(entries[..|entries| - 1]);
      EntryCallsAtMostOne(entries[|entries| - 1]);
    }
  }

  /** A key is a group key exactly when it is one of the five group names. */
  lemma GroupKeyNames(key: string)
    ensures ParseKey(key).GroupKey? <==> key in {"or", "and", "not", "and_not", "or_not"}
  {
  }

  /**
   * A group key makes one grouped call whose body is what the nested filter emits on the
   * fresh sub-builder, through `orWhere`, `andWhere`, `andWhereNot` (for both `not` and
   * `and_not`) or `orWhereNot`.
   */
  lemma GroupKeyCall(key: string, value: FilterValue)
    requires key in {"or", "and", "not", "and_not", "or_not"}
    ensures |EntryCalls(Entry(key, value))| == 1
    ensures EntryCalls(Entry(key, value))[0].Group?
    ensures EntryCalls(Entry(key, value))[0].body == FilterCalls(value)
    ensures MethodName(EntryCalls(Entry(key, value))[0]) ==
      if key == "or" then "orWhere"
      else if key == "and" then "andWhere"
      else if key == "or_not" then "orWhereNot"
      else "andWhereNot"
  {
  }

  /** `not` and `and_not` are interchangeable. */
  lemma NotIsAndNot(value: FilterValue)
    ensures EntryCalls(Entry("not", value)) == EntryCalls(Entry("and_not", value))
  {
  }

  /** `{key: {key: … {key: inner}}}`, `depth` levels deep. */
  function Nest(key: string, inner: FilterValue, depth: nat): FilterValue {
    if depth == 0 then inner else Object([Entry(key, Nest(key, inner, depth - 1))])
  }

  /** `calls` wrapped in `depth` nested groups of the same method. */
  function Grouped(m: GroupMethod, calls: seq<Call>, depth: nat): seq<Call> {
    if depth == 0 then calls else [Group(m.isOr, m.negated, Grouped(m, calls, depth - 1))]
  }

  /** Nesting a filter `depth` times under a group key yields `depth` nested groups around it. */
  lemma {:induction false} NestingDepth(key: string, inner: FilterValue, depth: nat)
    requires key in GroupMethods
    ensures FilterCalls(Nest(key, inner, depth)) == Grouped(GroupMethods[key], FilterCalls(inner), depth)
  {
    if depth > 0 {
      NestingDepth(key, inner, depth - 1);
      SingleEntry(Entry(key, Nest(key, inner, depth - 1)));
    }
  }

  /** The leaf key `column__operator`, or `prefix__column__operator` when there is a prefix. */
  function LeafKeyOf(prefix: Option<string>, column: string, operator: string): string {
    match prefix
    case None => column + "__" + operator
    case Some(p) => p + "__" + column + "__" + operator
  }

  /** No group name contains "__", so no key that does is a group key. */
  lemma GroupNamesHaveNoSeparator(key: string, i: int)
    requires key in GroupMethods
    ensures !MatchAt(key, "__", i)
  {
    TwoCharMatchAt(key, "__", i);
  }

  /**
   * A leaf key reads back as its column and operator; it is OR-combined exactly when its
   * prefix is the literal "or" (so `and__…` and every other prefix mean AND).
   */
  lemma ParseLeafKeyOf(prefix: Option<string>, column: string, operator: string)
    requires prefix.Some? ==> IsPiece(prefix.value, "__")
    requires IsPiece(column, "__") && !Contains(operator, "__")
    ensures ParseKey(LeafKeyOf(prefix, column, operator)) == LeafKey(column, operator, prefix == Some("or"))
  {
    var key := LeafKeyOf(prefix, column, operator);
    var parts := [column, operator];
    JoinTwo(column, operator, "__");
    if prefix.Some? {
      parts := [prefix.value, column, operator];
      JoinThree(prefix.value, column, operator, "__");
    }
    SplitJoin(parts, "__");
    var at := |parts[0]|;
    assert key[at..at + 2] == "__";
    if key in GroupMethods {
      GroupNamesHaveNoSeparator(key, at);
      assert false;
    }
  }

  /** A key of two parts is its parts joined by "__", the first a piece and the second free of "__". */
  lemma TwoPartKey(key: string)
    requires |Split(key, "__")| == 2
    ensures var parts := Split(key, "__");
      key == parts[0] + "__" + parts[1] && IsPiece(parts[0], "__") && !Contains(parts[1], "__")
  {
    var parts := Split(key, "__");
    JoinSplit(key, "__");
    SplitPieces(key, "__");
    assert parts == [parts[0], parts[1]];
    JoinTwo(parts[0], parts[1], "__");
  }

  /** A key of three parts is its parts joined by "__", the first two pieces and the last free of "__". */
  lemma ThreePartKey(key: string)
    requires |Split(key, "__")| == 3
    ensures var parts := Split(key, "__");
      key == parts[0] + "__" + parts[1] + "__" + parts[2]
      && IsPiece(parts[0], "__") && IsPiece(parts[1], "__") && !Contains(parts[2], "__")
  {
    var parts := Split(key, "__");
    JoinSplit(key, "__");
    SplitPieces(key, "__");
    assert parts == [parts[0], parts[1], parts[2]];
    JoinThree(parts[0], parts[1], parts[2], "__");
  }

  /**
   * Conversely, every key read as a leaf is `LeafKeyOf` some prefix, its column and its
   * operator, with pieces as `ParseLeafKeyOf` needs: the two lemmas describe leaf keys exactly.
   */
  lemma LeafKeyIsComposed(key: string)
    requires ParseKey(key).LeafKey?
    ensures var k := ParseKey(key);
      exists prefix :: key == LeafKeyOf(prefix, k.column, k.operator)
        && k.isOr == (prefix == Some("or"))
        && (prefix.Some? ==> IsPiece(prefix.value, "__"))
        && IsPiece(k.column, "__") && !Contains(k.operator, "__")
  {
    var k := ParseKey(key);
    var parts := Split(key, "__");
    var prefix: Option<string> := None;
    if |parts| == 2 {
      TwoPartKey(key);
    } else {
      ThreePartKey(key);
      prefix := Some(parts[0]);
    }
    assert key == LeafKeyOf(prefix, k.column, k.operator);
  }

  /** A key that is neither a group name nor two or three parts is skipped without a call. */
  lemma MalformedKeySkipped(key: string, value: FilterValue)
    requires key !in GroupMethods
    requires |Split(key, "__")| != 2 && |Split(key, "__")| != 3
    ensures EntryCalls(Entry(key, value)) == []
  {
  }

  /**
   * A null value always makes one null check on the column: `whereNotNull` for `is_not` and
   * `ne`, `whereNull` for every other operator (`not_eq`, `in`, `btw` and unknown ones too).
   */
  lemma NullValueCall(column: string, operator: string, isOr: bool)
    ensures OperatorCalls(column, operator, Null, isOr)
      == [NullCheck(isOr, operator == "is_not" || operator == "ne", column)]
  {
  }

  /** For any other value, `in`, `not_in`, `btw` and `not_btw` select the membership and range methods. */
  lemma RangeOperatorCall(column: string, operator: string, value: FilterValue, isOr: bool)
    requires !value.Null?
    requires operator in {"in", "not_in", "btw", "not_btw"}
    ensures OperatorCalls(column, operator, value, isOr) ==
      [if operator == "in" || operator == "not_in" then In(isOr, operator == "not_in", column, value)
       else Between(isOr, operator == "not_btw", column, value)]
  {
  }

  /** For a single character separator, having no occurrence of it makes a piece. */
  lemma NoCharIsPiece(p: string, sep: string)
    requires |sep| == 1 && !Contains(p, sep)
    ensures IsPiece(p, sep)
  {
    forall j | 0 <= j < |p|
      ensures !MatchAt(p + sep, sep, j)
    {
      if MatchAt(p + sep, sep, j) {
        assert (p + sep)[j..j + 1] == p[j..j + 1];
        assert MatchAt(p, sep, j);
        assert false;
      }
    }
  }

  /**
   * An operator without "_" that is not a range operator is a plain comparison: `where` (or
   * `orWhere`) with the operator's symbol, or the operator itself when it has none (`like`).
   */
  lemma PlainComparison(column: string, operator: string, value: FilterValue, isOr: bool)
    requires !value.Null? && operator !in RangeMethods
    requires !Contains(operator, "_")
    ensures OperatorCalls(column, operator, value, isOr)
      == [Compare(isOr, false, column, Comparator(operator), value)]
  {
    SplitJoin([operator], "_");
  }

  /**
   * An operator `first_base` that is not a range operator is a negated comparison on `base`:
   * `whereNot` (or `orWhereNot`). Whether `first` is "not" is never checked.
   */
  lemma NegatedComparison(column: string, first: string, base: string, value: FilterValue, isOr: bool)
    requires !value.Null? && first + "_" + base !in RangeMethods
    requires !Contains(first, "_") && !Contains(base, "_")
    ensures OperatorCalls(column, first + "_" + base, value, isOr)
      == [Compare(isOr, true, column, Comparator(base), value)]
  {
    NoCharIsPiece(first, "_");
    JoinTwo(first, base, "_");
    SplitJoin([first, base], "_");
  }

  /** An operator of three or more "_"-parts, with a non-null value, makes no call. */
  lemma LongOperatorIgnored(column: string, operator: string, value: FilterValue, isOr: bool)
    requires !value.Null? && operator !in RangeMethods
    requires |Split(operator, "_")| >= 3
    ensures OperatorCalls(column, operator, value, isOr) == []
  {
  }
}
