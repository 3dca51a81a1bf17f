# Scout conditions to an Elasticsearch `bool` query, in Dafny

This project models the query compiler of a Laravel Scout driver for Elasticsearch and proves properties of it.
The compiler turns the conditions collected by a Scout query builder into a `bool` query of the Elasticsearch Query DSL.

The model has three parts:

- **`ElasticsearchBooleanQuery`** (`boolean_query.dfy`) is a class with four clause lists: `must`, `filter`, `should` and `mustNot`.
  - `Add`, `AddNormal` and `AddNegated` append in place.
  - `ToArray` serialises the node: empty slots are left out and the keys keep the order `must`, `filter`, `should`, `must_not`.
  - `BoolNode` is the value of a node. A nested node is stored as its value, because every child is complete when it is attached and nothing changes it afterwards.
- **`SearchParametersFactory`** (`search_parameters_factory.dfy`):
  - `ConvertBuilderDataToBooleanQuery` and the per-type `Convert…OperatorToBooleanQuery` methods build the tree in place.
  - Each simple `wheres` entry becomes a `term`/`terms` filter.
  - The advanced conditions are then walked in reverse, with an optional open "OR bundle".
  - Every method is proved equal to the pure specification `CompileSpec` (with `ClauseOf`, `Apply`, `Step` and `Scan`).
  - `MakeQuery`, `MakeSort`, `MakeFrom`, `MakeSize` and `MakeFromBuilder` (without the index) assemble the rest of the request.
- **`ElasticBuilder`** (`elastic_builder.dfy`) has the twelve fluent setters for the `StringStartWith`, `StringEndWith` and `StringContains` records.

The property modules prove what the compiler guarantees:

- `compile_properties.dfy`:
  - the root's shape;
  - the `wheres` clauses come first;
  - an independent description of the OR grouping as maximal runs of `or` conditions (`Segments`, `FromSegments`) and its agreement with the scan;
  - the reverse order of plain conditions.
- `clause_properties.dfy`: negation, clause shapes, dropped conditions and failures per condition.
- `request_properties.dfy`: the `must` entry of the request and the paging guards.
- `scenarios.dfy`: worked examples.

The OR grouping follows the code. A run of consecutive `or` conditions becomes one bundle. The non-`or` condition next to it is *not* part of the group. So `[a (and), b (or)]` compiles to `filter: [{should: [b]}, a]`, not to `filter: [{should: [a, b]}]` (`Scenarios.OrAfterAndScenario`). An `or` condition that its rule drops still opens a bundle, so a builder whose only condition is such a record sends `filter: [[]]`, one empty array (`Scenarios.DroppedOrScenario`).

`Wire` models PHP arrays as documents:

- `JList` is a list-shaped array.
- `JMap` is a string-keyed array in insertion order; `SetKey` is `$a[k] = v`.
- `EmptyObject` is the `stdClass` payload of `match_all`.

Dynamic dispatch on the record's `type` becomes a closed `Kind` datatype. A type with no conversion method is the `Unknown` case. It fails with `UndefinedMethod`, as the PHP call to a missing method does.

## Model

| member | source | states |
|---|---|---|
| BooleanQuery.ElasticsearchBooleanQuery.constructor | src/ElasticsearchBooleanQuery.php:7-11 | a new node has four empty clause lists |
| BooleanQuery.ElasticsearchBooleanQuery.Add | src/ElasticsearchBooleanQuery.php:13-30 | the new node is `Added(old, c, negated, should)`: a negated disjunctive clause goes to `should` inside a fresh node whose only non-empty slot is `mustNot == [c]`; otherwise `mustNot`, `should` or `filter` gets `c`, and the other lists are unchanged |
| BooleanQuery.Added | src/ElasticsearchBooleanQuery.php:13-30 | slot by slot: `must` is never touched, `filter` grows by `c` iff neither flag is set, `should` grows iff `should` is set (by the wrapped negation when also negated), `mustNot` grows iff negated and not disjunctive |
| BooleanQuery.AddedGrowsOneList | src/ElasticsearchBooleanQuery.php:13-30 | every `add` grows the total size by exactly one, changes exactly one list, and never `must` |
| BooleanQuery.ElasticsearchBooleanQuery.AddNormal | src/ElasticsearchBooleanQuery.php:32-39 | same effect as `add` with `negated` false |
| BooleanQuery.ElasticsearchBooleanQuery.AddNegated | src/ElasticsearchBooleanQuery.php:41-50 | same effect as `add` with `negated` true |
| BooleanQuery.ElasticsearchBooleanQuery.ToArray | src/ElasticsearchBooleanQuery.php:52-84 | the array built slot by slot equals `NodeJson` of the node's value |
| BooleanQuery.ElasticsearchBooleanQuery.SerializeSlot | src/ElasticsearchBooleanQuery.php:57-59 | the `foreach` over one slot yields the slot's items serialised one by one, in order |
| BooleanQuery.ItemsJson | src/ElasticsearchBooleanQuery.php:57-79 | each output list has the slot's length and order; a nested node is replaced by its own serialisation, a leaf clause is copied unchanged |
| BooleanQuery.NodeJsonSlots | src/ElasticsearchBooleanQuery.php:55-81 | a key is present iff its slot is non-empty, and then holds the slot's serialised list; no other key is present |
| BooleanQuery.NodeJsonKeyOrder | src/ElasticsearchBooleanQuery.php:55-81 | the keys appear in the order `must`, `filter`, `should`, `must_not`, each at most once |
| BooleanQuery.NodeJsonEmpty | src/ElasticsearchBooleanQuery.php:54-83 | a node serialises to the empty array iff all four slots are empty, in particular a new node |
| Wire.SetKey | src/Factories/SearchParametersFactory.php:49-57 | `$a[k] = v`: a new key is appended at the end, an existing key keeps its place, afterwards `k` holds `v`, and every other key holds what it held before |
| Wire.ReplacePercent | src/Factories/SearchParametersFactory.php:175 | `str_replace("%", "*", s)`: same length, every `%` becomes `*`, every other character is kept, no `%` is left |
| Wire.ToTextOfInt | src/Factories/SearchParametersFactory.php:205-213 | the `.` conversion of an integer: its decimal digits, with a leading `-` exactly when it is negative and no leading `0` (zero is the text `0`), and the digits read back give the number |
| Wire.DigitsRoundTrip | src/Factories/SearchParametersFactory.php:205-213 | the decimal digits of a natural number read back as that number |
| SearchParametersFactory.WhereClauses | src/Factories/SearchParametersFactory.php:107-109 | one clause per `wheres` entry, in order: `terms` for an array value, `term` otherwise |
| SearchParametersFactory.LikePattern | src/Factories/SearchParametersFactory.php:174-176 | `str_replace("%", "*", value)` fails exactly for an integer subject, with the strict-types error; a string comes back rewritten with no `%` left; an array comes back as `ReplaceEach` of its entries, entry by entry: an array entry unchanged, any other entry converted to text and rewritten, with no `%` left |
| SearchParametersFactory.Reverse | src/Factories/SearchParametersFactory.php:113 | `array_reverse`: same length, element `i` is the source's element `n - 1 - i` |
| SearchParametersFactory.ConvertBuilderDataToBooleanQuery | src/Factories/SearchParametersFactory.php:103-137 | the root object is fresh and its value is `CompileSpec(b)`; the call fails exactly when `CompileSpec` fails, with the same error |
| SearchParametersFactory.ConvertWhere | src/Factories/SearchParametersFactory.php:114-130 | one pass of the reverse loop changes the root and the open bundle exactly as one `Step` of the scan, and fails with the same error |
| SearchParametersFactory.DispatchConvert | src/Factories/SearchParametersFactory.php:122-129 | the dynamic call applies the rule of the record's type (`Apply`), leaves the node unchanged on failure, and fails with `UndefinedMethod("convert…OperatorToBooleanQuery")` for an unknown type |
| SearchParametersFactory.ConvertBasicOperatorToBooleanQuery | src/Factories/SearchParametersFactory.php:139-178 | the `switch` adds the clause `BasicClause` names, with `not` inverted for `!=`/`<>`/`neq`; an unlisted operator adds nothing; `like` on an integer fails |
| SearchParametersFactory.ConvertBetweenOperatorToBooleanQuery | src/Factories/SearchParametersFactory.php:180-183 | adds `range{gte: value, lte: secondValue}` with `not` |
| SearchParametersFactory.ConvertInOperatorToBooleanQuery | src/Factories/SearchParametersFactory.php:185-188 | adds `terms{field: values}` with `not` |
| SearchParametersFactory.ConvertNullOperatorToBooleanQuery | src/Factories/SearchParametersFactory.php:190-193 | adds `exists{field}` with `not` inverted |
| SearchParametersFactory.ConvertExistsOperatorToBooleanQuery | src/Factories/SearchParametersFactory.php:195-198 | adds `exists{field}` with `not` |
| SearchParametersFactory.ConvertStringStartWithOperatorToBooleanQuery | src/Factories/SearchParametersFactory.php:200-203 | adds `match_phrase_prefix{field: value}` with `not` |
| SearchParametersFactory.ConvertStringEndWithOperatorToBooleanQuery | src/Factories/SearchParametersFactory.php:205-208 | adds `wildcard{field: "*" . value}` with `not` |
| SearchParametersFactory.ConvertStringContainsOperatorToBooleanQuery | src/Factories/SearchParametersFactory.php:210-213 | adds `wildcard{field: "*" . value . "*"}` with `not` |
| SearchParametersFactory.ConvertNestedOperatorToBooleanQuery | src/Factories/SearchParametersFactory.php:215-220 | with a builder, adds its compiled node as one entry (or fails when it fails); without one, adds nothing |
| SearchParametersFactory.ReplaceEach | src/Factories/SearchParametersFactory.php:175 | `str_replace` on an array subject: each non-array entry is converted to text and rewritten, array entries are kept |
| SearchParametersFactory.MakeQuery | src/Factories/SearchParametersFactory.php:42-61 | the request query is `QuerySpec(b)`: the compiled node under `bool`, with `must` overwritten |
| SearchParametersFactory.MakeSort | src/Factories/SearchParametersFactory.php:80-87 | None iff there is no order; otherwise one `[column => direction]` entry per order, in order |
| SearchParametersFactory.MakeFrom | src/Factories/SearchParametersFactory.php:89-96 | an offset is produced iff both `page` and `perPage` are set |
| SearchParametersFactory.Truthy | src/Factories/SearchParametersFactory.php:26-31 | the assignment guard lets a value through iff it is set and not 0 |
| SearchParametersFactory.MakeFromBuilder | src/Factories/SearchParametersFactory.php:12-35 | fails iff compilation fails; otherwise the query is `QuerySpec`, the sort is `MakeSort`, and offset and size are `MakeFrom`/`MakeSize` passed through the truthiness guard |
| CompileProperties.ApplyChanges | src/Factories/SearchParametersFactory.php:139-220 | a conversion rule never touches `must` and only appends to `filter`; with `should` true it leaves `filter` and `mustNot` alone, with `should` false it leaves `should` alone |
| CompileProperties.ScanKeepsShape | src/Factories/SearchParametersFactory.php:114-130 | through the loop the root never gets `must`/`should` entries and an open bundle has only `should` entries |
| CompileProperties.CompiledRootShape | src/Factories/SearchParametersFactory.php:117-134 | the compiled root has empty `must` and `should` slots |
| CompileProperties.WheresComeFirst | src/Factories/SearchParametersFactory.php:107-109 | the root's `filter` starts with exactly the `wheres` clauses, in list order, before every advanced-condition clause |
| CompileProperties.OnlyWheres | src/Factories/SearchParametersFactory.php:105-136 | with no advanced conditions, the root is exactly the `wheres` filters |
| CompileProperties.SegmentsPartition | src/Factories/SearchParametersFactory.php:113-134 | the segments partition the condition list into single non-`or` conditions and maximal, non-empty runs of `or` conditions, with no two runs adjacent |
| CompileProperties.CompileBySegments | src/Factories/SearchParametersFactory.php:111-134 | the compiler equals the reference: segments from the last, each single condition applied to the root with `should` false, each maximal `or` run applied with `should` true to one fresh node that is appended to `filter` |
| CompileProperties.OpenBundle | src/Factories/SearchParametersFactory.php:117-123 | while a bundle is open, a trailing run of `or` conditions all go into it, last first |
| CompileProperties.ScanOfRun | src/Factories/SearchParametersFactory.php:117-134 | a trailing run of `or` conditions is applied to one new bundle, which is appended to `filter` before the conditions in front of the run are scanned; a failure in the run is the compiler's failure |
| CompileProperties.SealBeforeStep | src/Factories/SearchParametersFactory.php:124-129 | a non-`or` condition that meets an open bundle sees the root with that bundle already appended to `filter` |
| CompileProperties.BundleOnlyShould | src/Factories/SearchParametersFactory.php:118-123 | a bundle's only non-empty slot is `should`, with at most one entry per `or` condition |
| CompileProperties.AllAnd | src/Factories/SearchParametersFactory.php:124-130 | without `or` conditions no bundle is opened and every condition is applied to the root with `should` false |
| CompileProperties.AllOr | src/Factories/SearchParametersFactory.php:117-134 | when every advanced condition is `or`, the root is the `wheres` filters followed by one bundle holding all of them |
| CompileProperties.AndOrderReversed | src/Factories/SearchParametersFactory.php:113-134 | without `or` conditions, and with every condition adding an entry, non-negated entries land in `filter` after the `wheres` clauses and negated ones in `must_not`, each in reverse source order; `must` and `should` stay empty |
| CompileProperties.OrBundleContents | src/Factories/SearchParametersFactory.php:113-134 | with every condition `or` and adding an entry, the root is the `wheres` filters followed by one bundle whose only slot is `should`, holding one entry per condition in reverse source order, a negated one wrapped alone in a `must_not` node |
| CompileProperties.ApplyAllConjuncts | src/Factories/SearchParametersFactory.php:123-128 | conditions applied to a node with `should` false append their non-negated entries to `filter` and their negated ones to `must_not`, last condition first, and change nothing else |
| CompileProperties.ApplyAllDisjuncts | src/Factories/SearchParametersFactory.php:116-122 | conditions applied to a bundle with `should` true append one `should` entry each, last condition first, a negated one wrapped in its own `must_not` node, and change nothing else |
| ClauseProperties.NegationPassedToAdd | src/Factories/SearchParametersFactory.php:141-192 | the flag passed to `add` is `not ?? false`, inverted exactly for `!=`, `<>`, `neq` and `Null` |
| ClauseProperties.DroppedConditions | src/Factories/SearchParametersFactory.php:142-219 | a condition adds nothing iff it is `Basic` with an unlisted operator or `Nested` without a builder |
| ClauseProperties.FailingConditions | src/Factories/SearchParametersFactory.php:122-218 | a condition fails iff its type is unknown, `like` meets an integer, or its nested builder fails |
| ClauseProperties.UnknownTypeError | src/Factories/SearchParametersFactory.php:122-129 | an unknown type fails naming the method `convert{type}OperatorToBooleanQuery` |
| ClauseProperties.EqualityAndInequality | src/Factories/SearchParametersFactory.php:143-171 | `=`/`eq` and `!=`/`<>`/`neq` build the same `term` clause and differ only in the negation flag |
| ClauseProperties.ComparisonClause | src/Factories/SearchParametersFactory.php:148-166 | each comparison, in either spelling, builds `range` with the bound `gt`, `lt`, `gte` or `lte` |
| ClauseProperties.LikeClause | src/Factories/SearchParametersFactory.php:174-176 | `like` on a string builds `wildcard` with every `%` replaced by `*`; on an integer it fails |
| ClauseProperties.TypedClauses | src/Factories/SearchParametersFactory.php:180-213 | the clause shape of `Between`, `In`, `Null`, `Exists` and the three string types, with `not` passed through (inverted for `Null`) |
| ClauseProperties.NullIsNegatedExists | src/Factories/SearchParametersFactory.php:190-198 | `Null` and `Exists` build the same clause with opposite negation flags |
| ClauseProperties.NestedClause | src/Factories/SearchParametersFactory.php:215-220 | a nested builder contributes its compiled root as one entry with the record's `not` |
| ClauseProperties.DoubleNegation | src/Factories/SearchParametersFactory.php:141-171 | a negated `!=` has the same effect as a plain `=` |
| RequestProperties.MustClauseCases | src/Factories/SearchParametersFactory.php:48-58 | `must` is `query_string{query}` iff the query text is not empty ("" and "0" are empty), `match_all` otherwise |
| RequestProperties.QueryMustLast | src/Factories/SearchParametersFactory.php:44-58 | the request query is the compiled node's keys followed by `must`, because the compiled root never has a `must` slot |
| RequestProperties.QueryBoolKeys | src/Factories/SearchParametersFactory.php:44-58 | under `bool`, `must` holds the search text clause and every other key is the compiled node's |
| RequestProperties.PagesTile | src/Factories/SearchParametersFactory.php:91-93 | consecutive pages start `perPage` hits apart |
| RequestProperties.FromSent | src/Factories/SearchParametersFactory.php:26-96 | an offset is sent iff both options are set, the page is not 1 and `perPage` is not 0 |
| RequestProperties.FirstPageSendsNoFrom | src/Factories/SearchParametersFactory.php:26-93 | on the first page no offset is sent |
| RequestProperties.PerPageOverridesLimit | src/Factories/SearchParametersFactory.php:98-101 | `makeSize`: a set `perPage` decides the size alone; a `perPage` of 0 sends no size even when the builder has a limit |
| RequestProperties.LimitAsSize | src/Factories/SearchParametersFactory.php:98-101 | `makeSize`: without `perPage` the size is the builder's limit, sent iff it is set and not 0 |
| ElasticBuilder.ElasticBuilder.WhereStringStartWith | src/ElasticBuilder.php:21-28 | appends exactly one `StringStartWith` record with `boolean` (default "and") and `not` (default false), keeps earlier records and returns the same builder |
| ElasticBuilder.ElasticBuilder.OrWhereStringStartWith | src/ElasticBuilder.php:38-41 | same as the base setter with `boolean` "or" |
| ElasticBuilder.ElasticBuilder.WhereNotStringStartWith | src/ElasticBuilder.php:51-54 | same as the base setter with `not` true |
| ElasticBuilder.ElasticBuilder.OrWhereNotStringStartWith | src/ElasticBuilder.php:63-66 | same as the base setter with `boolean` "or" and `not` true |
| ElasticBuilder.ElasticBuilder.WhereStringEndWith | src/ElasticBuilder.php:77-84 | appends exactly one `StringEndWith` record, keeps earlier records and returns the same builder |
| ElasticBuilder.ElasticBuilder.OrWhereStringEndWith | src/ElasticBuilder.php:94-97 | same as the base setter with `boolean` "or" |
| ElasticBuilder.ElasticBuilder.WhereNotStringEndWith | src/ElasticBuilder.php:107-110 | same as the base setter with `not` true |
| ElasticBuilder.ElasticBuilder.OrWhereNotStringEndWith | src/ElasticBuilder.php:119-122 | same as the base setter with `boolean` "or" and `not` true |
| ElasticBuilder.ElasticBuilder.WhereStringContains | src/ElasticBuilder.php:133-140 | appends exactly one `StringContains` record, keeps earlier records and returns the same builder |
| ElasticBuilder.ElasticBuilder.OrWhereStringContains | src/ElasticBuilder.php:150-153 | same as the base setter with `boolean` "or" |
| ElasticBuilder.ElasticBuilder.WhereNotStringContains | src/ElasticBuilder.php:163-166 | same as the base setter with `not` true |
| ElasticBuilder.ElasticBuilder.OrWhereNotStringContains | src/ElasticBuilder.php:175-178 | same as the base setter with `boolean` "or" and `not` true |
| ElasticBuilder.RecordCompiles | src/ElasticBuilder.php:21-28 | a setter's record joins an OR group iff `boolean` is exactly "or", and compiles to its type's clause with the setter's `not` |
| ElasticBuilder.DefaultRecordIsFilter | src/ElasticBuilder.php:21-140 | with the default arguments a setter's record is a plain conjunct that goes to the root's `filter` |
| ElasticBuilder.NegatedRecordPlacement | src/ElasticBuilder.php:51-66 | a `whereNot*` record goes to `must_not`; an `orWhereNot*` record is wrapped alone in a `must_not` node inside the bundle |
| Scenarios.RangeScenario | src/Factories/SearchParametersFactory.php:158-161 | `age >= 18` compiles to `{filter: [{range: {age: {gte: 18}}}]}` |
| Scenarios.OrAfterAndScenario | src/Factories/SearchParametersFactory.php:113-134 | `[a (and), b (or)]` compiles to `{filter: [{should: [b]}, a]}` |
| Scenarios.LikeScenario | src/Factories/SearchParametersFactory.php:174-176 | `like "abc%"` gives the wildcard pattern `abc*` |
| Scenarios.NullScenario | src/Factories/SearchParametersFactory.php:190-193 | a non-negated `Null` condition compiles to `{must_not: [{exists: {field: f}}]}` |
| Scenarios.NegatedOrScenario | src/ElasticsearchBooleanQuery.php:15-19 | a single negated `or` condition ends up as `filter: [{should: [{must_not: [c]}]}]` |
| Scenarios.ReverseOrderScenario | src/Factories/SearchParametersFactory.php:113-114 | two `and` conditions land in `filter` in reverse order |
| Scenarios.DroppedOrScenario | src/Factories/SearchParametersFactory.php:117-134 | an `or` condition whose rule adds nothing still opens a bundle, so the root serialises to `filter` holding one empty array |

## Left out

- `makeIndex` is not part of this model. It calls `searchableAs()` on the model, which is outside the package. `MakeFromBuilder` produces everything but the index.
- `makeFilter` is not part of this model. It uses Laravel collections and nothing calls it.
- The `SearchParameters` class of the adapter library is not part of this model. `MakeFromBuilder` returns a value holding what its setters receive.
- Records are not routed between lists. The setters append to the builder's `wheres` property, and the compiler reads typed records from `advancedWheres`. How records reach `advancedWheres` depends on the Scout `Builder` base class, which is not part of this model. `Builder.advancedWheres` is therefore an input.
- The records of the base class and its traits (`Basic`, `Between`, `In`, `Null`, `Exists`, `Nested`) are modelled as input values, not as setters.
- Values are strings, integers or arrays. Floats, booleans and null are left out.
- `ToText` of an array is the text "Array"; PHP also emits a warning, which is not modelled.
- PHP's case-insensitive method names are not modelled. A `type` is matched exactly, so a record whose `type` differs only in letter case from a known one fails here but would dispatch in PHP.
- `Kind.Unknown` stands for a `type` that names none of the nine conversion methods (`Basic`, `Between`, `In`, `Null`, `Exists`, `Nested`, `StringStartWith`, `StringEndWith`, `StringContains`). A record whose type names one of them is built with that case, so `ClauseProperties.FailingConditions` and `ClauseProperties.UnknownTypeError` are about such names only; the datatype does not itself forbid a known name inside `Unknown`.
- PHP turns a numeric-string array key into an integer key. This is not modelled.
- `SearchParametersFactory.MakeFrom`: the arithmetic is on unbounded integers. The factory declares strict types and `makeFrom` returns `?int`, so a product beyond the platform integer range becomes a float and the return throws a `TypeError`; that failure is not modelled.
- `SearchParametersFactory.LikePattern` follows PHP 8 with strict types: an integer subject is a type error. Older PHP versions convert it to text instead.
- A `Nested` record holds its builder as a value (`Option<Builder>`), so a builder cannot contain itself. In PHP a builder reachable from its own nested record makes `convertNestedOperatorToBooleanQuery` (SearchParametersFactory.php:218) recurse without end; the model's compilation terminates only because datatype values are acyclic, and that case is not modelled.
- Nested nodes are stored by value. The source creates every child fresh and never shares or changes it after attaching it, so no aliasing is lost.
- `BooleanQuery.ItemJson`: the nested `toArray()` call inside the slot loop is the pure function `NodeJson`, not a recursive method call.
- The `Arrayable` interface is not modelled.
- The `ElasticBuilder.ElasticBuilder` class holds only the condition list. The other builder state (model, callback, index, orders, limit) lives in the base class, which is not part of this model.
