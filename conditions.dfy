/**
 * What the compiler reads from a Scout query builder.
 *
 * A builder carries a simple list `wheres` (field => value, always combined
 * with AND) and a list `advancedWheres` of typed condition records. Each
 * record names its type (which selects the conversion rule), its connective
 * `boolean` and its negation flag `not`; either of the last two may be
 * missing from the record.
 */
module Conditions {
  import opened Wire

  /** The `type` of an advanced condition record, with the keys that type reads. */
  datatype Kind =
    | Basic(field: string, operator: string, value: Value)
    | Between(field: string, value: Value, secondValue: Value)
    | In(field: string, values: Value)
    | Null(field: string)
    | Exists(field: string)
    | StringStartWith(field: string, value: Value)
    | StringEndWith(field: string, value: Value)
    | StringContains(field: string, value: Value)
    | Nested(query: Option<Builder>)   // None: no `query`, or a `query` that is not a Builder
    | Unknown(typeName: string)         // a `type` with no conversion method

  datatype Condition = Condition(kind: Kind, boolean: Option<string>, not: Option<bool>)

  datatype Order = Order(column: string, direction: string)

  datatype Builder = Builder(
    wheres: seq<(string, Value)>,
    advancedWheres: seq<Condition>,
    query: string,
    orders: seq<Order>,
    limit: Option<int>)

  /** The `type` tag stored in the record. */
  function TypeName(k: Kind): string {
    match k
    case Basic(_, _, _) => "Basic"
    case Between(_, _, _) => "Between"
    case In(_, _) => "In"
    case Null(_) => "Null"
    case Exists(_) => "Exists"
    case StringStartWith(_, _) => "StringStartWith"
    case StringEndWith(_, _) => "StringEndWith"
    case StringContains(_, _) => "StringContains"
    case Nested(_) => "Nested"
    case Unknown(name) => name
  }

  /** `isset($whereData['boolean']) && $whereData['boolean'] === "or"`. */
  predicate IsOr(c: Condition) {
    c.boolean == Some("or")
  }

  /** `$whereData['not'] ?? false`. */
  function NotFlag(c: Condition): bool {
    c.not.GetOr(false)
  }
}
