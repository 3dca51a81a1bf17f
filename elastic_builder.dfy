/**
 * The fluent setters of the query builder for the string-matching record
 * types `StringStartWith`, `StringEndWith` and `StringContains`.
 *
 * Every setter appends one typed record to the builder's condition list
 * and returns the builder itself. The `orWhere*`, `whereNot*` and
 * `orWhereNot*` variants delegate to the base setter of their type.
 */
module ElasticBuilder {
  import opened Wire
  import opened BooleanQuery
  import opened Conditions
  import opened SearchParametersFactory

  /** `compact('type', 'field', 'value', 'boolean', 'not')`: both flags are always present. */
  function Record(kind: Kind, boolean: string, not: bool): (r: Condition)
    ensures IsOr(r) <==> boolean == "or"
    ensures NotFlag(r) == not
  {
    Condition(kind, Some(boolean), Some(not))
  }

  class ElasticBuilder {
    var wheres: seq<Condition>

    constructor ()
      ensures wheres == []
    {
      wheres := [];
    }

    method WhereStringStartWith(field: string, value: Value, boolean: string := "and", not: bool := false)
      returns (r: ElasticBuilder)
      modifies this
      ensures r == this
      ensures wheres == old(wheres) + [Record(StringStartWith(field, value), boolean, not)]
    {
      wheres := wheres + [Record(StringStartWith(field, value), boolean, not)];
      r := this;
    }

    method OrWhereStringStartWith(field: string, value: Value, not: bool := false) returns (r: ElasticBuilder)
      modifies this
      ensures r == this
      ensures wheres == old(wheres) + [Record(StringStartWith(field, value), "or", not)]
    {
      r := WhereStringStartWith(field, value, "or", not);
    }

    method WhereNotStringStartWith(field: string, value: Value, boolean: string := "and") returns (r: ElasticBuilder)
      modifies this
      ensures r == this
      ensures wheres == old(wheres) + [Record(StringStartWith(field, value), boolean, true)]
    {
      r := WhereStringStartWith(field, value, boolean, true);
    }

    method OrWhereNotStringStartWith(field: string, value: Value) returns (r: ElasticBuilder)
      modifies this
      ensures r == this
      ensures wheres == old(wheres) + [Record(StringStartWith(field, value), "or", true)]
    {
      r := OrWhereStringStartWith(field, value, true);
    }

    method WhereStringEndWith(field: string, value: Value, boolean: string := "and", not: bool := false)
      returns (r: ElasticBuilder)
      modifies this
      ensures r == this
      ensures wheres == old(wheres) + [Record(StringEndWith(field, value), boolean, not)]
    {
      wheres := wheres + [Record(StringEndWith(field, value), boolean, not)];
      r := this;
    }

    method OrWhereStringEndWith(field: string, value: Value, not: bool := false) returns (r: ElasticBuilder)
      modifies this
      ensures r == this
      ensures wheres == old(wheres) + [Record(StringEndWith(field, value), "or", not)]
    {
      r := WhereStringEndWith(field, value, "or", not);
    }

    method WhereNotStringEndWith(field: string, value: Value, boolean: string := "and") returns (r: ElasticBuilder)
      modifies this
      ensures r == this
      ensures wheres == old(wheres) + [Record(StringEndWith(field, value), boolean, true)]
    {
      r := WhereStringEndWith(field, value, boolean, true);
    }

    method OrWhereNotStringEndWith(field: string, value: Value) returns (r: ElasticBuilder)
      modifies this
      ensures r == this
      ensures wheres == old(wheres) + [Record(StringEndWith(field, value), "or", true)]
    {
      r := OrWhereStringEndWith(field, value, true);
    }

    method WhereStringContains(field: string, value: Value, boolean: string := "and", not: bool := false)
      returns (r: ElasticBuilder)
      modifies this
      ensures r == this
      ensures wheres == old(wheres) + [Record(StringContains(field, value), boolean, not)]
    {
      wheres := wheres + [Record(StringContains(field, value), boolean, not)];
      r := this;
    }

    method OrWhereStringContains(field: string, value: Value, not: bool := false) returns (r: ElasticBuilder)
      modifies this
      ensures r == this
      ensures wheres == old(wheres) + [Record(StringContains(field, value), "or", not)]
    {
      r := WhereStringContains(field, value, "or", not);
    }

    method WhereNotStringContains(field: string, value: Value, boolean: string := "and") returns (r: ElasticBuilder)
      modifies this
      ensures r == this
      ensures wheres == old(wheres) + [Record(StringContains(field, value), boolean, true)]
    {
      r := WhereStringContains(field, value, boolean, true);
    }

    method OrWhereNotStringContains(field: string, value: Value) returns (r: ElasticBuilder)
      modifies this
      ensures r == this
      ensures wheres == old(wheres) + [Record(StringContains(field, value), "or", true)]
    {
      r := OrWhereStringContains(field, value, true);
    }
  }

  /** The three string-matching record types. */
  predicate StringMatch(k: Kind) {
    k.StringStartWith? || k.StringEndWith? || k.StringContains?
  }

  /**
   * A record written by a setter compiles to the clause of its type, with
   * the setter's `not` as the negation flag; it joins an OR group exactly
   * when the setter's `boolean` is the lower-case text "or".
   */
  lemma {:induction false} RecordCompiles(kind: Kind, boolean: string, not: bool)
    requires StringMatch(kind)
    ensures var r := Record(kind, boolean, not);
      && (IsOr(r) <==> boolean == "or")
      && ClauseOf(r).Success? && ClauseOf(r).value.Some?
      && ClauseOf(r).value.value.1 == not
      && ClauseOf(r).value.value.0 == Clause(match kind
           case StringStartWith(f, v) => FieldClause("match_phrase_prefix", f, Atom(v))
           case StringEndWith(f, v) => FieldClause("wildcard", f, Atom(Str("*" + ToText(v))))
           case _ => FieldClause("wildcard", kind.field, Atom(Str("*" + ToText(kind.value) + "*"))))
  {
  }

  /**
   * With the default arguments a setter's record is a plain conjunct: on
   * the root it goes to `filter` and nowhere else.
   */
  lemma {:induction false} DefaultRecordIsFilter(n: BoolNode, kind: Kind)
    requires StringMatch(kind)
    ensures var r := Record(kind, "and", false);
      && !IsOr(r)
      && Apply(n, r, false).Success?
      && Apply(n, r, false).value == n.(filter := n.filter + [ClauseOf(r).value.value.0])
  {
  }

  /** A `whereNot*` record on the root goes to `must_not`; an `orWhereNot*` record in a bundle is wrapped in its own `must_not`. */
  lemma {:induction false} NegatedRecordPlacement(n: BoolNode, kind: Kind)
    requires StringMatch(kind)
    ensures var r := Record(kind, "and", true);
      var o := Record(kind, "or", true);
      && Apply(n, r, false) == Success(n.(mustNot := n.mustNot + [ClauseOf(r).value.value.0]))
      && Apply(n, o, true) == Success(n.(should := n.should + [Sub(Negation(ClauseOf(o).value.value.0))]))
  {
  }
}
