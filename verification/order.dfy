/**
 * `order` of src/index.ts: one `orderBy` call per order string, in the order given. A leading
 * '+' or '-' is removed from the column and chooses "asc" or "desc"; any other string is
 * passed unchanged with the configurable default direction.
 */
module Ordering {
  import opened QueryBuilder

  /** The initial value of the setting `order.defaultOrderDirection`. */
  const DefaultOrderDirection: Direction := Asc

  /** `BUILDER_ORDER_DIRECTION_BY_ORDER_DIRECTION`. */
  const DirectionBySign: map<char, Direction> := map['+' := Asc, '-' := Desc]

  /** The column handed to `orderBy`: the string without one leading '+' or '-'. */
  function StripSign(s: string): string {
    if s != [] && (s[0] == '+' || s[0] == '-') then s[1..] else s
  }

  /** The direction handed to `orderBy`: the one the first character names, else the default. */
  function SignDirection(s: string, defaultDirection: Direction): Direction {
    if s != [] && s[0] in DirectionBySign then DirectionBySign[s[0]] else defaultDirection
  }

  /** The `orderBy` calls for a list of order strings. */
  function OrderCalls(orderStrings: seq<string>, defaultDirection: Direction): seq<Call>
    decreases |orderStrings|
  {
    if orderStrings == [] then []
    else
      var s := orderStrings[|orderStrings| - 1];
      OrderCalls(orderStrings[..|orderStrings| - 1], defaultDirection)
        + [OrderBy(StripSign(s), SignDirection(s, defaultDirection))]
  }

  /** `order(builder, ...orderStrings)` with `order.defaultOrderDirection == defaultDirection`. */
  method Order(builder: Builder, orderStrings: seq<string>, defaultDirection: Direction) returns (r: Builder)
    modifies builder
    ensures r == builder
    ensures builder.calls == old(builder.calls) + OrderCalls(orderStrings, defaultDirection)
  {
    r := builder;
    for i := 0 to |orderStrings|
      invariant builder.calls == old(builder.calls) + OrderCalls(orderStrings[..i], defaultDirection)
    {
      var s := orderStrings[i];
      builder.Record(OrderBy(StripSign(s), SignDirection(s, defaultDirection)));
      assert orderStrings[..i + 1][..i] == orderStrings[..i];
    }
    assert orderStrings[..|orderStrings|] == orderStrings;
  }

  /** The sign that names a direction. */
  function SignOf(d: Direction): char {
    match d
    case Asc => '+'
    case Desc => '-'
  }

  /** A signed column reads back as that column and the sign's direction, whatever the default. */
  lemma SignedRoundTrip(column: string, d: Direction, defaultDirection: Direction)
    ensures StripSign([SignOf(d)] + column) == column
    ensures SignDirection([SignOf(d)] + column, defaultDirection) == d
  {
    assert ([SignOf(d)] + column)[1..] == column;
  }

  /**
   * Every order string is either the signed form of its column and direction, or it is the
   * column itself with the default direction (the empty string included).
   */
  lemma SignedOrDefault(s: string, defaultDirection: Direction)
    ensures s == [SignOf(SignDirection(s, defaultDirection))] + StripSign(s)
      || (StripSign(s) == s && SignDirection(s, defaultDirection) == defaultDirection)
    ensures s == [] || (s[0] != '+' && s[0] != '-')
      ==> StripSign(s) == s && SignDirection(s, defaultDirection) == defaultDirection
  {
    if s != [] && (s[0] == '+' || s[0] == '-') {
      assert s == [s[0]] + s[1..];
    }
  }

  /** One call per string, in input order, each on the string's column and direction. */
  lemma {:induction false} OrderCallsPointwise(orderStrings: seq<string>, defaultDirection: Direction)
    ensures |OrderCalls(orderStrings, defaultDirection)| == |orderStrings|
    ensures forall k :: 0 <= k < |orderStrings| ==>
      OrderCalls(orderStrings, defaultDirection)[k]
        == OrderBy(StripSign(orderStrings[k]), SignDirection(orderStrings[k], defaultDirection))
    decreases |orderStrings|
  {
    if orderStrings != [] {
      var front := orderStrings[..|orderStrings| - 1];
      OrderCallsPointwise(front, defaultDirection);
      assert forall k :: 0 <= k < |front| ==> front[k] == orderStrings[k];
    }
  }
}
