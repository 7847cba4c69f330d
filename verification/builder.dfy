/**
 * The query builder the translator drives, reduced to a recorder of the calls made on it.
 *
 * The concrete builder (a SQL builder such as Knex) is not part of this model. What the
 * translator relies on is the fixed set of methods of `FilterQueryBuilder`,
 * `OrderQueryBuilder` and `PaginationQueryBuilder`; each call on one of them is recorded as a
 * `Call`, and `MethodName` gives the name of the builder method that the call stands for.
 */
module QueryBuilder {

  /** An opaque scalar that the translator hands to the builder without looking at it. */
  datatype Atom = Text(text: string) | Number(number: int) | Boolean(flag: bool) | Timestamp(millis: int)

  /**
   * A JavaScript value found in a filter object. The translator only ever asks whether a
   * value is `null` and whether a filter is an object; everything else is passed through.
   */
  datatype FilterValue =
    | Undefined
    | Null
    | Scalar(atom: Atom)
    | List(items: seq<Atom>)
    | Pair(lower: Atom, upper: Atom)
    | Object(entries: seq<Entry>)

  /** One own property of a filter object, in `Object.keys` order. */
  datatype Entry = Entry(key: string, value: FilterValue)

  /** The direction handed to `orderBy`: "asc" or "desc". */
  datatype Direction = Asc | Desc

  /**
   * One method call on the builder. `isOr` selects the `or…` variant of a predicate method and
   * `negated` its `…Not…` variant; a `Group` records the predicates its callback issued on the
   * fresh sub-builder it was given.
   */
  datatype Call =
    | Compare(isOr: bool, negated: bool, column: string, comparator: string, value: FilterValue)
    | In(isOr: bool, negated: bool, column: string, value: FilterValue)
    | Between(isOr: bool, negated: bool, column: string, value: FilterValue)
    | NullCheck(isOr: bool, negated: bool, column: string)
    | Group(isOr: bool, negated: bool, body: seq<Call>)
    | OrderBy(column: string, direction: Direction)
    | Limit(count: int)
    | Offset(count: int)

  /** The name of the builder method a call invokes. */
  function MethodName(c: Call): string {
    match c
    case Compare(isOr, negated, _, _, _) =>
      if isOr then (if negated then "orWhereNot" else "orWhere")
      else (if negated then "whereNot" else "where")
    case In(isOr, negated, _, _) =>
      if isOr then (if negated then "orWhereNotIn" else "orWhereIn")
      else (if negated then "whereNotIn" else "whereIn")
    case Between(isOr, negated, _, _) =>
      if isOr then (if negated then "orWhereNotBetween" else "orWhereBetween")
      else (if negated then "whereNotBetween" else "whereBetween")
    case NullCheck(isOr, negated, _) =>
      if isOr then (if negated then "orWhereNotNull" else "orWhereNull")
      else (if negated then "whereNotNull" else "whereNull")
    case Group(isOr, negated, _) =>
      if isOr then (if negated then "orWhereNot" else "orWhere")
      else (if negated then "andWhereNot" else "andWhere")
    case OrderBy(_, _) => "orderBy"
    case Limit(_) => "limit"
    case Offset(_) => "offset"
  }

  /** The direction token passed to `orderBy`. */
  function DirectionName(d: Direction): string {
    match d
    case Asc => "asc"
    case Desc => "desc"
  }

  /** A builder instance: the calls made on it so far, oldest first. */
  class Builder {
    var calls: seq<Call>

    /** A fresh builder, such as the one a group callback receives. */
    constructor ()
      ensures calls == []
    {
      calls := [];
    }

    /** Invokes the builder method `MethodName(c)` with the arguments carried by `c`. */
    method Record(c: Call)
      modifies this
      ensures calls == old(calls) + [c]
    {
      calls := calls + [c];
    }
  }
}
