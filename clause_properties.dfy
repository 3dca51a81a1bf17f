/**
 * What each conversion rule contributes for one condition: the negation
 * flag it passes to `add`, the clause it builds, and when it adds nothing
 * or stops the compilation.
 */
module ClauseProperties {
  import opened Wire
  import opened BooleanQuery
  import opened Conditions
  import opened SearchParametersFactory

  /** The operators the `Basic` rule lists in its `switch`. */
  predicate ListedOperator(op: string) {
    IsEquality(op) || RangeKey(op).Some? || IsInequality(op) || op == "like"
  }

  /** The rules that pass the negation of `not` to `add`: `!=`, `<>`, `neq` and `Null`. */
  predicate InvertsNegation(k: Kind) {
    (k.Basic? && IsInequality(k.operator)) || k.Null?
  }

  /**
   * The flag handed to `add` is `not` (false when missing), inverted exactly
   * for the inequality operators and for `Null`.
   */
  lemma {:induction false} NegationPassedToAdd(c: Condition)
    requires ClauseOf(c).Success? && ClauseOf(c).value.Some?
    ensures ClauseOf(c).value.value.1 == if InvertsNegation(c.kind) then !NotFlag(c) else NotFlag(c)
  {
  }

  /** A condition adds nothing exactly when its operator is not listed, or when `Nested` carries no builder. */
  lemma {:induction false} DroppedConditions(c: Condition)
    ensures ClauseOf(c) == Success(None)
        <==> (c.kind.Basic? && !ListedOperator(c.kind.operator)) || c.kind == Nested(None)
  {
  }

  /**
   * A condition stops the compilation exactly when its type has no
   * conversion method, when `like` meets an integer, or when a nested
   * builder fails to compile.
   */
  lemma {:induction false} FailingConditions(c: Condition)
    ensures ClauseOf(c).Failure?
        <==> || c.kind.Unknown?
             || (c.kind.Basic? && c.kind.operator == "like" && c.kind.value.Int?)
             || (c.kind.Nested? && c.kind.query.Some? && CompileSpec(c.kind.query.value).Failure?)
  {
  }

  /** An unknown type names the missing method in its error. */
  lemma {:induction false} UnknownTypeError(c: Condition)
    requires c.kind.Unknown?
    ensures ClauseOf(c) == Failure(UndefinedMethod("convert" + TypeName(c.kind) + "OperatorToBooleanQuery"))
  {
  }

  /** `=`/`eq` and `!=`/`<>`/`neq` build the same `term` clause and differ only in the flag passed to `add`. */
  lemma {:induction false} EqualityAndInequality(field: string, eq: string, neq: string, value: Value, not: bool)
    requires IsEquality(eq) && IsInequality(neq)
    ensures BasicClause(field, eq, value, not) == Success(Some((FieldClause("term", field, Atom(value)), not)))
    ensures BasicClause(field, neq, value, not) == Success(Some((FieldClause("term", field, Atom(value)), !not)))
  {
  }

  /** A comparison builds `range` with the bound named after the operator, in either spelling. */
  lemma {:induction false} ComparisonClause(field: string, op: string, value: Value, not: bool)
    requires op in [">", "gt", "<", "lt", ">=", "gte", "<=", "lte"]
    ensures var bound := if op in [">", "gt"] then "gt"
                         else if op in ["<", "lt"] then "lt"
                         else if op in [">=", "gte"] then "gte"
                         else "lte";
      BasicClause(field, op, value, not)
      == Success(Some((FieldClause("range", field, JMap([(bound, Atom(value))])), not)))
  {
  }

  /**
   * `like` on a string builds a `wildcard` clause whose pattern is the value
   * with every `%` turned into `*` (see `ReplacePercent`); on an integer it
   * stops the compilation.
   */
  lemma {:induction false} LikeClause(field: string, v: Value, not: bool)
    ensures v.Str? ==>
      BasicClause(field, "like", v, not)
      == Success(Some((FieldClause("wildcard", field, Atom(Str(ReplacePercent(v.s)))), not)))
    ensures v.Int? ==> BasicClause(field, "like", v, not) == Failure(SubjectTypeError)
  {
    assert !IsEquality("like") && RangeKey("like").None? && !IsInequality("like");
  }

  /** The clause each of the remaining types builds, with `not` passed through (inverted for `Null`). */
  lemma {:induction false} TypedClauses(c: Condition)
    requires !c.kind.Basic? && !c.kind.Nested? && !c.kind.Unknown?
    ensures ClauseOf(c).Success? && ClauseOf(c).value.Some?
    ensures var (item, negated) := ClauseOf(c).value.value;
      && item.Clause?
      && negated == (if c.kind.Null? then !NotFlag(c) else NotFlag(c))
      && item.body == match c.kind
         case Between(f, low, high) => FieldClause("range", f, JMap([("gte", Atom(low)), ("lte", Atom(high))]))
         case In(f, values) => FieldClause("terms", f, Atom(values))
         case Null(f) => FieldClause("exists", "field", Atom(Str(f)))
         case Exists(f) => FieldClause("exists", "field", Atom(Str(f)))
         case StringStartWith(f, v) => FieldClause("match_phrase_prefix", f, Atom(v))
         case StringEndWith(f, v) => FieldClause("wildcard", f, Atom(Str("*" + ToText(v))))
         case StringContains(f, v) => FieldClause("wildcard", f, Atom(Str("*" + ToText(v) + "*")))
         case _ => item.body
  {
  }

  /** `Null` and `Exists` on the same field build the same clause and land on opposite sides. */
  lemma {:induction false} NullIsNegatedExists(field: string, boolean: Option<string>, not: Option<bool>)
    ensures var isNull := ClauseOf(Condition(Null(field), boolean, not)).value.value;
            var exists_ := ClauseOf(Condition(Exists(field), boolean, not)).value.value;
      isNull.0 == exists_.0 && isNull.1 == !exists_.1
  {
  }

  /** A nested builder contributes its whole compiled node as one entry, with its own `not`. */
  lemma {:induction false} NestedClause(c: Condition)
    requires c.kind.Nested? && c.kind.query.Some?
    ensures CompileSpec(c.kind.query.value).Success?
        ==> ClauseOf(c) == Success(Some((Sub(CompileSpec(c.kind.query.value).value), NotFlag(c))))
  {
  }

  /**
   * A negated `!=` is the same as a plain `=`: the two inversions cancel,
   * whatever list the condition goes to.
   */
  lemma {:induction false} DoubleNegation(n: BoolNode, field: string, value: Value, boolean: Option<string>, d: bool)
    ensures Apply(n, Condition(Basic(field, "!=", value), boolean, Some(true)), d)
         == Apply(n, Condition(Basic(field, "=", value), boolean, None), d)
  {
  }
}
