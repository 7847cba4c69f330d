/**
 * Concrete filters from the repository's tests and documentation, with the builder calls
 * the model says they produce.
 */
module FilterScenarios {
  import opened Wrappers
  import opened StringSplit
  import opened QueryBuilder
  import opened Filtering
  import opened FilterProperties

  /** A string with no underscore at all. */
  predicate Word(p: string) {
    forall i :: 0 <= i < |p| ==> p[i] != '_'
  }

  /** A word is a piece for both separators and contains neither. */
  lemma WordIsPiece(p: string)
    requires Word(p)
    ensures IsPiece(p, "__") && !Contains(p, "__") && !Contains(p, "_")
  {
    forall j | 0 <= j < |p|
      ensures !MatchAt(p + "__", "__", j)
    {
      assert (p + "__")[j] == p[j];
    }
    forall j | 0 <= j <= |p|
      ensures !MatchAt(p, "__", j) && !MatchAt(p, "_", j)
    {
      if j < |p| {
        assert p[j..j + 1][0] == p[j];
      }
    }
  }

  /** The call a leaf key of words makes: `OperatorCalls` on its column and operator. */
  lemma LeafEntry(prefix: Option<string>, column: string, operator: string, value: FilterValue)
    requires prefix.Some? ==> Word(prefix.value)
    requires Word(column) && !Contains(operator, "__")
    ensures EntryCalls(Entry(LeafKeyOf(prefix, column, operator), value))
      == OperatorCalls(column, operator, value, prefix == Some("or"))
  {
    if prefix.Some? {
      WordIsPiece(prefix.value);
    }
    WordIsPiece(column);
    ParseLeafKeyOf(prefix, column, operator);
  }

  /** The calls of a two-key object are those of its first key, then those of its second. */
  lemma TwoEntries(a: Entry, b: Entry)
    ensures FilterCalls(Object([a, b])) == EntryCalls(a) + EntryCalls(b)
  {
    EntriesCallsAppend([a], [b]);
    assert [a] + [b] == [a, b];
    SingleEntry(a);
    SingleEntry(b);
  }

  /** "a___b" split on "__" is ["a", "_b"]: the leftmost match wins. */
  lemma SplitIsLeftmost()
    ensures Split("a___b", "__") == ["a", "_b"]
  {
    assert IsPiece("a", "__") by {
      assert ("a" + "__")[0..2][0] == 'a';
    }
    assert !Contains("_b", "__") by {
      assert "_b"[0..2][1] == 'b';
    }
    assert Join(["a", "_b"], "__") == "a___b";
    SplitJoin(["a", "_b"], "__");
  }

  /** The empty string splits into one empty part. */
  lemma SplitEmpty()
    ensures Split("", "_") == [""]
  {
  }

  const Hello: FilterValue := Scalar(Text("hello"))

  /**
   * A leaf key of words whose operator is neither a range operator nor split by "_" is a
   * plain comparison, OR-combined exactly when the prefix is "or".
   */
  lemma WordComparison(prefix: Option<string>, column: string, operator: string, v: FilterValue)
    requires prefix.Some? ==> Word(prefix.value)
    requires Word(column) && Word(operator) && operator !in RangeMethods && !v.Null?
    ensures EntryCalls(Entry(LeafKeyOf(prefix, column, operator), v))
      == [Compare(prefix == Some("or"), false, column, Comparator(operator), v)]
  {
    WordIsPiece(operator);
    LeafEntry(prefix, column, operator, v);
    PlainComparison(column, operator, v, prefix == Some("or"));
  }

  /** `column__eq: v` is `where("column", "=", v)`. */
  lemma ColumnEq(v: FilterValue)
    requires !v.Null?
    ensures EntryCalls(Entry("column__eq", v)) == [Compare(false, false, "column", "=", v)]
  {
    assert LeafKeyOf(None, "column", "eq") == "column__eq";
    WordComparison(None, "column", "eq", v);
  }

  /** `or__column2__like: v` is `orWhere("column2", "like", v)`: an unmapped operator passes verbatim. */
  lemma OrColumn2Like(v: FilterValue)
    requires !v.Null?
    ensures EntryCalls(Entry("or__column2__like", v)) == [Compare(true, false, "column2", "like", v)]
  {
    assert LeafKeyOf(Some("or"), "column2", "like") == "or__column2__like";
    assert Comparator("like") == "like";
    WordComparison(Some("or"), "column2", "like", v);
  }

  /** `column2__like: v` is `where("column2", "like", v)`. */
  lemma Column2Like(v: FilterValue)
    requires !v.Null?
    ensures EntryCalls(Entry("column2__like", v)) == [Compare(false, false, "column2", "like", v)]
  {
    assert LeafKeyOf(None, "column2", "like") == "column2__like";
    assert Comparator("like") == "like";
    WordComparison(None, "column2", "like", v);
  }

  /** `{ column__eq: 'hello', column2__like: 'hello' }`: `where "column" = ? and "column2" like ?`. */
  lemma MultipleConditions()
    ensures FilterCalls(Object([Entry("column__eq", Hello), Entry("column2__like", Hello)]))
      == [Compare(false, false, "column", "=", Hello), Compare(false, false, "column2", "like", Hello)]
  {
    TwoEntries(Entry("column__eq", Hello), Entry("column2__like", Hello));
    ColumnEq(Hello);
    Column2Like(Hello);
  }

  /** `{ column__eq: 'hello', or__column2__like: 'hello' }`: `where "column" = ? or "column2" like ?`. */
  lemma OrPrefixedCondition()
    ensures FilterCalls(Object([Entry("column__eq", Hello), Entry("or__column2__like", Hello)]))
      == [Compare(false, false, "column", "=", Hello), Compare(true, false, "column2", "like", Hello)]
  {
    TwoEntries(Entry("column__eq", Hello), Entry("or__column2__like", Hello));
    ColumnEq(Hello);
    OrColumn2Like(Hello);
  }

  /** An operator of two words joined by one "_" has no "__". */
  lemma TwoWordOperator(first: string, base: string)
    requires Word(first) && Word(base)
    ensures !Contains(first + "_" + base, "__")
  {
    var op := first + "_" + base;
    forall i | 0 <= i < |op|
      ensures op[i] == '_' ==> i == |first|
    {
      if i < |first| {
        assert op[i] == first[i];
      } else if i > |first| {
        assert op[i] == base[i - |first| - 1];
      }
    }
    forall j | 0 <= j <= |op|
      ensures !MatchAt(op, "__", j)
    {
      TwoCharMatchAt(op, "__", j);
    }
  }

  /** A leaf key whose operator is `first_base` is a negated comparison on `base`. */
  lemma WordNegatedComparison(prefix: Option<string>, column: string, first: string, base: string, v: FilterValue)
    requires prefix.Some? ==> Word(prefix.value)
    requires Word(column) && Word(first) && Word(base)
    requires first + "_" + base !in RangeMethods && !v.Null?
    ensures EntryCalls(Entry(LeafKeyOf(prefix, column, first + "_" + base), v))
      == [Compare(prefix == Some("or"), true, column, Comparator(base), v)]
  {
    TwoWordOperator(first, base);
    WordIsPiece(first);
    WordIsPiece(base);
    LeafEntry(prefix, column, first + "_" + base, v);
    NegatedComparison(column, first, base, v, prefix == Some("or"));
  }

  /** `column__not_eq: v` is `whereNot("column", "=", v)`. */
  lemma NotEq(v: FilterValue)
    requires !v.Null?
    ensures EntryCalls(Entry("column__not_eq", v)) == [Compare(false, true, "column", "=", v)]
  {
    assert "not" + "_" + "eq" == "not_eq";
    assert LeafKeyOf(None, "column", "not_eq") == "column__not_eq";
    WordNegatedComparison(None, "column", "not", "eq", v);
  }

  /** `column__ne: v` is `where("column", "<>", v)`: not the same call as `column__not_eq`. */
  lemma Ne(v: FilterValue)
    requires !v.Null?
    ensures EntryCalls(Entry("column__ne", v)) == [Compare(false, false, "column", "<>", v)]
  {
    assert LeafKeyOf(None, "column", "ne") == "column__ne";
    WordComparison(None, "column", "ne", v);
  }

  /** A three-part key with any prefix other than "or" is AND-combined: `and__column__eq`. */
  lemma AndPrefixIsAnd(v: FilterValue)
    requires !v.Null?
    ensures EntryCalls(Entry("and__column__eq", v)) == [Compare(false, false, "column", "=", v)]
  {
    assert LeafKeyOf(Some("and"), "column", "eq") == "and__column__eq";
    WordComparison(Some("and"), "column", "eq", v);
  }

  /** The two conditions of the `not` test. */
  const NotBody: FilterValue := Object([Entry("column__eq", Hello), Entry("or__column2__like", Hello)])

  /** `{ not: { column__eq: 'hello', or__column2__like: 'hello' } }`: `where not ("column" = ? or "column2" like ?)`. */
  lemma NotGroup()
    ensures FilterCalls(Object([Entry("not", NotBody)]))
      == [Group(false, true, [Compare(false, false, "column", "=", Hello), Compare(true, false, "column2", "like", Hello)])]
  {
    SingleEntry(Entry("not", NotBody));
    OrPrefixedCondition();
  }

  /** A null value under `operator` checks "column" for null, negated as the null table says. */
  lemma ColumnNull(operator: string, negated: bool)
    requires !Contains(operator, "__") && negated == (operator == "is_not" || operator == "ne")
    ensures EntryCalls(Entry(LeafKeyOf(None, "column", operator), Null)) == [NullCheck(false, negated, "column")]
  {
    LeafEntry(None, "column", operator, Null);
    NullValueCall("column", operator, false);
  }

  /** `column__is: null` is `whereNull("column")`. */
  lemma IsNull()
    ensures EntryCalls(Entry("column__is", Null)) == [NullCheck(false, false, "column")]
  {
    assert Word("is");
    WordIsPiece("is");
    assert LeafKeyOf(None, "column", "is") == "column__is";
    ColumnNull("is", false);
  }

  /** `column__eq: null` is `whereNull("column")` too. */
  lemma EqNull()
    ensures EntryCalls(Entry("column__eq", Null)) == [NullCheck(false, false, "column")]
  {
    assert Word("eq");
    WordIsPiece("eq");
    assert LeafKeyOf(None, "column", "eq") == "column__eq";
    ColumnNull("eq", false);
  }

  /** `column__ne: null` is `whereNotNull("column")`. */
  lemma NeNull()
    ensures EntryCalls(Entry("column__ne", Null)) == [NullCheck(false, true, "column")]
  {
    assert Word("ne");
    WordIsPiece("ne");
    assert LeafKeyOf(None, "column", "ne") == "column__ne";
    ColumnNull("ne", true);
  }

  /** `column__is_not: null` is `whereNotNull("column")`. */
  lemma IsNotNull()
    ensures EntryCalls(Entry("column__is_not", Null)) == [NullCheck(false, true, "column")]
  {
    assert Word("is") && Word("not");
    TwoWordOperator("is", "not");
    assert "is" + "_" + "not" == "is_not";
    assert LeafKeyOf(None, "column", "is_not") == "column__is_not";
    ColumnNull("is_not", true);
  }

  /** `column__btw: v` is `whereBetween("column", v)`, the value unchanged. */
  lemma Btw(v: FilterValue)
    requires !v.Null?
    ensures EntryCalls(Entry("column__btw", v)) == [Between(false, false, "column", v)]
  {
    assert Word("btw");
    WordIsPiece("btw");
    assert LeafKeyOf(None, "column", "btw") == "column__btw";
    LeafEntry(None, "column", "btw", v);
    RangeOperatorCall("column", "btw", v, false);
  }

  /** `column__in: v` is `whereIn("column", v)`, the value unchanged. */
  lemma InList(v: FilterValue)
    requires !v.Null?
    ensures EntryCalls(Entry("column__in", v)) == [In(false, false, "column", v)]
  {
    assert Word("in");
    WordIsPiece("in");
    assert LeafKeyOf(None, "column", "in") == "column__in";
    LeafEntry(None, "column", "in", v);
    RangeOperatorCall("column", "in", v, false);
  }

  /** A key of a single word, "column", is neither a group name nor two or three parts: no call. */
  lemma OneSegmentKeySkipped(v: FilterValue)
    ensures EntryCalls(Entry("column", v)) == []
  {
    assert Word("column");
    WordIsPiece("column");
    SplitJoin(["column"], "__");
    MalformedKeySkipped("column", v);
  }

  /** The calls of a three-key object, key by key. */
  lemma ThreeEntries(a: Entry, b: Entry, c: Entry)
    ensures FilterCalls(Object([a, b, c])) == EntryCalls(a) + EntryCalls(b) + EntryCalls(c)
  {
    EntriesCallsAppend([a, b], [c]);
    assert [a, b] + [c] == [a, b, c];
    TwoEntries(a, b);
    SingleEntry(c);
  }

  /** Three keys that make one call each make those three calls, in key order. */
  lemma OneCallEach(a: Entry, b: Entry, c: Entry, ca: Call, cb: Call, cc: Call)
    requires EntryCalls(a) == [ca] && EntryCalls(b) == [cb] && EntryCalls(c) == [cc]
    ensures |FilterCalls(Object([a, b, c]))| == 3
    ensures FilterCalls(Object([a, b, c]))[0] == ca
    ensures FilterCalls(Object([a, b, c]))[1] == cb
    ensures FilterCalls(Object([a, b, c]))[2] == cc
  {
    ThreeEntries(a, b, c);
    assert FilterCalls(Object([a, b, c])) == [ca] + [cb] + [cc];
  }

  const Twelve: FilterValue := Scalar(Number(12))
  const Fourteen: FilterValue := Scalar(Number(14))

  /** `column3__eq: 12, or__column4__eq: 14`, the inner group of the nesting test. */
  const InnerOr: FilterValue := Object([Entry("column3__eq", Twelve), Entry("or__column4__eq", Fourteen)])

  /** The body of the `and` group of the nesting test. */
  const AndBody: FilterValue :=
    Object([Entry("column__eq", Hello), Entry("or__column2__like", Hello), Entry("or", InnerOr)])

  /** `column3__eq: v` is `where("column3", "=", v)`. */
  lemma Column3Eq(v: FilterValue)
    requires !v.Null?
    ensures EntryCalls(Entry("column3__eq", v)) == [Compare(false, false, "column3", "=", v)]
  {
    assert LeafKeyOf(None, "column3", "eq") == "column3__eq";
    WordComparison(None, "column3", "eq", v);
  }

  /** `or__column4__eq: v` is `orWhere("column4", "=", v)`. */
  lemma OrColumn4Eq(v: FilterValue)
    requires !v.Null?
    ensures EntryCalls(Entry("or__column4__eq", v)) == [Compare(true, false, "column4", "=", v)]
  {
    assert LeafKeyOf(Some("or"), "column4", "eq") == "or__column4__eq";
    WordComparison(Some("or"), "column4", "eq", v);
  }

  /** The inner `or` group: `("column3" = ? or "column4" = ?)`. */
  lemma InnerOrCalls()
    ensures FilterCalls(InnerOr)
      == [Compare(false, false, "column3", "=", Twelve), Compare(true, false, "column4", "=", Fourteen)]
  {
    TwoEntries(Entry("column3__eq", Twelve), Entry("or__column4__eq", Fourteen));
    Column3Eq(Twelve);
    OrColumn4Eq(Fourteen);
  }

  /** A group entry's single call wraps what its value emits. */
  lemma GroupEntry(key: string, value: FilterValue)
    requires key in GroupMethods
    ensures EntryCalls(Entry(key, value))
      == [Group(GroupMethods[key].isOr, GroupMethods[key].negated, FilterCalls(value))]
  {
  }

  /**
   * The body of the `and` group, for any inner `or` value: two leaf comparisons and then the
   * group of what the inner value emits, in key order.
   */
  lemma AndBodyCalls(inner: FilterValue)
    ensures var calls := FilterCalls(Object([Entry("column__eq", Hello), Entry("or__column2__like", Hello), Entry("or", inner)]));
      |calls| == 3
      && calls[0] == Compare(false, false, "column", "=", Hello)
      && calls[1] == Compare(true, false, "column2", "like", Hello)
      && calls[2] == Group(true, false, FilterCalls(inner))
  {
    ColumnEq(Hello);
    OrColumn2Like(Hello);
    GroupEntry("or", inner);
    OneCallEach(Entry("column__eq", Hello), Entry("or__column2__like", Hello), Entry("or", inner),
      Compare(false, false, "column", "=", Hello),
      Compare(true, false, "column2", "like", Hello),
      Group(true, false, FilterCalls(inner)));
  }

  /**
   * `{ and: { column__eq: 'hello', or__column2__like: 'hello', or: { column3__eq: 12, or__column4__eq: 14 } } }`:
   * `where ("column" = ? or "column2" like ? or ("column3" = ? or "column4" = ?))`.
   */
  lemma NestedGroups()
    ensures FilterCalls(Object([Entry("and", AndBody)]))
      == [Group(false, false, [
            Compare(false, false, "column", "=", Hello),
            Compare(true, false, "column2", "like", Hello),
            Group(true, false, [Compare(false, false, "column3", "=", Twelve), Compare(true, false, "column4", "=", Fourteen)])
          ])]
  {
    SingleEntry(Entry("and", AndBody));
    GroupEntry("and", AndBody);
    AndBodyCalls(InnerOr);
    InnerOrCalls();
    var body := FilterCalls(AndBody);
    assert body == [body[0], body[1], body[2]];
  }
}
