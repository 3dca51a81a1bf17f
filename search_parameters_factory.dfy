/**
 * The compiler from a builder's conditions to a `bool` query, and the small
 * helpers that assemble the rest of a search request.
 *
 * The first half states what the compiler computes, as functions over
 * `BoolNode` values; the second half is the compiler itself, methods that
 * build `ElasticsearchBooleanQuery` objects in place and are proved to
 * compute exactly that.
 */
module SearchParametersFactory {
  import opened Wire
  import opened BooleanQuery
  import opened Conditions

  /** Why a compilation stops. */
  datatype Error =
    | UndefinedMethod(name: string)   // the dynamic call `convert{type}OperatorToBooleanQuery` has no target
    | SubjectTypeError                // `str_replace` refuses an integer subject under strict types

  datatype Result<+T> = Success(value: T) | Failure(error: Error)

  // ---------------------------------------------------------------------
  // Clause shapes
  // ---------------------------------------------------------------------

  /** `[kind => [field => payload]]`, the shape of every leaf clause. */
  function FieldClause(kind: string, field: string, payload: Json): (r: Json)
    ensures r.JMap? && |r.entries| == 1 && r.entries[0].0 == kind
    ensures r.entries[0].1 == JMap([(field, payload)])
  {
    JMap([(kind, JMap([(field, payload)]))])
  }

  /** The clause for one simple `wheres` entry: `terms` for an array value, `term` otherwise. */
  function WhereClause(field: string, value: Value): Json {
    if value.Arr? then FieldClause("terms", field, Atom(value))
    else FieldClause("term", field, Atom(value))
  }

  /** The clauses of the simple `wheres` list, in list order. */
  function WhereClauses(wheres: seq<(string, Value)>): (r: seq<Item>)
    ensures |r| == |wheres|
    ensures forall i :: 0 <= i < |wheres| ==> r[i] == Clause(WhereClause(wheres[i].0, wheres[i].1))
  {
    if wheres == [] then []
    else WhereClauses(wheres[..|wheres| - 1]) + [Clause(WhereClause(wheres[|wheres| - 1].0, wheres[|wheres| - 1].1))]
  }

  /** The root after the `wheres` loop: one filter clause per entry. */
  function WheresNode(wheres: seq<(string, Value)>): BoolNode {
    BoolNode([], WhereClauses(wheres), [], [])
  }

  /** The bound key of a comparison operator (`>`/`gt`, `<`/`lt`, `>=`/`gte`, `<=`/`lte`). */
  function RangeKey(op: string): Option<string> {
    if op == ">" || op == "gt" then Some("gt")
    else if op == "<" || op == "lt" then Some("lt")
    else if op == ">=" || op == "gte" then Some("gte")
    else if op == "<=" || op == "lte" then Some("lte")
    else None
  }

  predicate IsEquality(op: string) {
    op == "=" || op == "eq"
  }

  predicate IsInequality(op: string) {
    op == "!=" || op == "<>" || op == "neq"
  }

  /**
   * `str_replace("%", "*", value)`: a string is rewritten; an array has each
   * non-array entry converted to a string and rewritten, array entries are
   * kept; an integer is refused, because the factory declares strict types.
   */
  function LikePattern(v: Value): (r: Result<Value>)
    ensures r.Failure? <==> v.Int?
    ensures r.Failure? ==> r.error == SubjectTypeError
    ensures v.Str? ==> r == Success(Str(ReplacePercent(v.s))) && '%' !in r.value.s
    ensures v.Arr? ==> r.value.Arr? && |r.value.items| == |v.items|
    ensures v.Arr? ==> forall i :: 0 <= i < |v.items| && !v.items[i].Arr? ==>
      r.value.items[i].Str? && '%' !in r.value.items[i].s
    ensures v.Arr? ==> r == Success(Arr(ReplaceEach(v.items)))
    ensures v.Arr? ==> forall i :: 0 <= i < |v.items| ==>
      r.value.items[i] == if v.items[i].Arr? then v.items[i] else Str(ReplacePercent(ToText(v.items[i])))
  {
    match v
    case Str(s) => Success(Str(ReplacePercent(s)))
    case Int(_) => Failure(SubjectTypeError)
    case Arr(items) => Success(Arr(ReplaceEach(items)))
  }

  function ReplaceEach(items: seq<Value>): (r: seq<Value>)
    ensures |r| == |items|
    ensures forall i :: 0 <= i < |items| ==>
      r[i] == if items[i].Arr? then items[i] else Str(ReplacePercent(ToText(items[i])))
  {
    if items == [] then []
    else [if items[0].Arr? then items[0] else Str(ReplacePercent(ToText(items[0])))]
         + ReplaceEach(items[1..])
  }

  /**
   * The `switch` of the `Basic` rule: the clause and the negation flag it
   * passes to `add`, or None for an operator it does not list.
   */
  function BasicClause(field: string, op: string, value: Value, not: bool): Result<Option<(Json, bool)>> {
    if IsEquality(op) then
      Success(Some((FieldClause("term", field, Atom(value)), not)))
    else if RangeKey(op).Some? then
      Success(Some((FieldClause("range", field, JMap([(RangeKey(op).value, Atom(value))])), not)))
    else if IsInequality(op) then
      Success(Some((FieldClause("term", field, Atom(value)), !not)))
    else if op == "like" then
      match LikePattern(value)
      case Failure(e) => Failure(e)
      case Success(p) => Success(Some((FieldClause("wildcard", field, Atom(p)), not)))
    else
      Success(None)
  }

  function BetweenClause(field: string, low: Value, high: Value): Json {
    FieldClause("range", field, JMap([("gte", Atom(low)), ("lte", Atom(high))]))
  }

  function ExistsClause(field: string): Json {
    FieldClause("exists", "field", Atom(Str(field)))
  }

  // ---------------------------------------------------------------------
  // What the compiler computes
  // ---------------------------------------------------------------------

  /**
   * The clause a condition contributes and the negation flag passed to
   * `add`; None when the condition adds nothing.
   */
  function ClauseOf(c: Condition): Result<Option<(Item, bool)>>
    decreases c, 1
  {
    var not := NotFlag(c);
    match c.kind
    case Basic(field, op, value) =>
      (match BasicClause(field, op, value, not)
       case Failure(e) => Failure(e)
       case Success(None) => Success(None)
       case Success(Some((json, negated))) => Success(Some((Clause(json), negated))))
    case Between(field, low, high) => Success(Some((Clause(BetweenClause(field, low, high)), not)))
    case In(field, values) => Success(Some((Clause(FieldClause("terms", field, Atom(values))), not)))
    case Null(field) => Success(Some((Clause(ExistsClause(field)), !not)))
    case Exists(field) => Success(Some((Clause(ExistsClause(field)), not)))
    case StringStartWith(field, value) =>
      Success(Some((Clause(FieldClause("match_phrase_prefix", field, Atom(value))), not)))
    case StringEndWith(field, value) =>
      Success(Some((Clause(FieldClause("wildcard", field, Atom(Str("*" + ToText(value))))), not)))
    case StringContains(field, value) =>
      Success(Some((Clause(FieldClause("wildcard", field, Atom(Str("*" + ToText(value) + "*")))), not)))
    case Nested(None) => Success(None)
    case Nested(Some(sub)) =>
      (match CompileSpec(sub)
       case Failure(e) => Failure(e)
       case Success(node) => Success(Some((Sub(node), not))))
    case Unknown(name) => Failure(UndefinedMethod("convert" + name + "OperatorToBooleanQuery"))
  }

  /** The node after the conversion rule for `c` has run against `n`. */
  function Apply(n: BoolNode, c: Condition, disjunctive: bool): Result<BoolNode>
    decreases c, 2
  {
    match ClauseOf(c)
    case Failure(e) => Failure(e)
    case Success(None) => Success(n)
    case Success(Some((item, negated))) => Success(Added(n, item, negated, disjunctive))
  }

  /** The scan's state: the root and the open OR bundle, if any. */
  datatype State = State(root: BoolNode, bundle: Option<BoolNode>)

  /** Appends the open bundle, if any, to the root's `filter`. */
  function Seal(st: State): BoolNode {
    match st.bundle
    case None => st.root
    case Some(bundle) => st.root.(filter := st.root.filter + [Sub(bundle)])
  }

  /** One iteration of the reverse scan. */
  function Step(st: State, c: Condition): Result<State>
    decreases c, 3
  {
    if IsOr(c) then
      match Apply(st.bundle.GetOr(Empty), c, true)
      case Failure(e) => Failure(e)
      case Success(bundle) => Success(State(st.root, Some(bundle)))
    else
      match Apply(Seal(st), c, false)
      case Failure(e) => Failure(e)
      case Success(root) => Success(State(root, None))
  }

  /** The reverse scan: processes `ws` from its last condition to its first. */
  function Scan(ws: seq<Condition>, st: State): Result<State>
    decreases ws, 0
  {
    if ws == [] then Success(st)
    else
      match Step(st, ws[|ws| - 1])
      case Failure(e) => Failure(e)
      case Success(next) => Scan(ws[..|ws| - 1], next)
  }

  function Finish(r: Result<State>): Result<BoolNode> {
    match r
    case Failure(e) => Failure(e)
    case Success(st) => Success(Seal(st))
  }

  /** `convertBuilderDataToBooleanQuery`: the root node compiled from a builder. */
  function CompileSpec(b: Builder): Result<BoolNode>
    decreases b, 1
  {
    Finish(Scan(b.advancedWheres, State(WheresNode(b.wheres), None)))
  }

  // ---------------------------------------------------------------------
  // The compiler
  // ---------------------------------------------------------------------

  /** `array_reverse`. */
  function Reverse(s: seq<Condition>): (r: seq<Condition>)
    ensures |r| == |s|
    ensures forall i :: 0 <= i < |s| ==> r[i] == s[|s| - 1 - i]
  {
    if s == [] then [] else [s[|s| - 1]] + Reverse(s[..|s| - 1])
  }

  /** One unfolding of the scan over a prefix of `ws`. */
  lemma {:induction false} ScanLast(ws: seq<Condition>, k: nat, st: State)
    requires 0 < k <= |ws|
    ensures Scan(ws[..k], st) == match Step(st, ws[k - 1])
                                 case Failure(e) => Failure(e)
                                 case Success(next) => Scan(ws[..k - 1], next)
  {
    assert ws[..k][..k - 1] == ws[..k - 1];
  }

  /** What a conversion method did to its node, measured against the expected outcome. */
  predicate Converted(before: BoolNode, after: BoolNode, err: Option<Error>, expected: Result<BoolNode>) {
    match expected
    case Success(n) => err == None && after == n
    case Failure(e) => err == Some(e) && after == before
  }

  method ConvertBuilderDataToBooleanQuery(b: Builder) returns (r: Result<ElasticsearchBooleanQuery>)
    ensures r.Success? == CompileSpec(b).Success?
    ensures r.Success? ==> fresh(r.value) && r.value.Snapshot() == CompileSpec(b).value
    ensures r.Failure? ==> r.error == CompileSpec(b).error
    decreases b, 1
  {
    var root := new ElasticsearchBooleanQuery();
    for i := 0 to |b.wheres|
      invariant root.Snapshot() == WheresNode(b.wheres[..i])
    {
      var (field, value) := b.wheres[i];
      root.AddNormal(Clause(WhereClause(field, value)));
      assert b.wheres[..i + 1][..i] == b.wheres[..i];
    }
    assert b.wheres[..|b.wheres|] == b.wheres;

    var ws := b.advancedWheres;
    var n := |ws|;
    ghost var init := State(WheresNode(b.wheres), None);
    var orBundle: ElasticsearchBooleanQuery? := null;
    var advancedWheres := Reverse(ws);
    assert ws[..n] == ws;
    for i := 0 to n
      invariant fresh(root)
      invariant orBundle != null ==> fresh(orBundle) && orBundle != root
      invariant Scan(ws, init) == Scan(ws[..n - i], State(root.Snapshot(), BundleOf(orBundle)))
    {
      ghost var st := State(root.Snapshot(), BundleOf(orBundle));
      ghost var step := Step(st, ws[n - i - 1]);
      assert Scan(ws[..n - i], st) == if step.Failure? then Failure(step.error) else Scan(ws[..n - i - 1], step.value) by {
        ScanLast(ws, n - i, st);
      }
      assert advancedWheres[i] == ws[n - i - 1];
      var err;
      orBundle, err := ConvertWhere(advancedWheres[i], root, orBundle);
      if err.Some? {
        assert step == Failure(err.value);
        return Failure(err.value);
      }
    }
    assert ws[..0] == [];
    ghost var last := State(root.Snapshot(), BundleOf(orBundle));
    assert CompileSpec(b) == Success(Seal(last));

    if orBundle != null {
      root.filter := root.filter + [Sub(orBundle.Snapshot())];
    }
    assert root.Snapshot() == Seal(last);
    return Success(root);
  }

  /** The open OR bundle as a value, None when there is none. */
  function BundleOf(q: ElasticsearchBooleanQuery?): Option<BoolNode>
    reads q
  {
    if q == null then None else Some(q.Snapshot())
  }

  /**
   * One pass of the reverse `foreach`: an OR condition goes into the open
   * bundle (opened on demand); any other condition first appends the open
   * bundle to the root's `filter`, closes it, and then goes to the root.
   */
  method ConvertWhere(c: Condition, root: ElasticsearchBooleanQuery, orBundle: ElasticsearchBooleanQuery?)
    returns (bundle: ElasticsearchBooleanQuery?, err: Option<Error>)
    requires orBundle != root
    modifies root, orBundle
    ensures bundle != null ==> bundle != root && (bundle == orBundle || fresh(bundle))
    ensures match Step(State(old(root.Snapshot()), old(BundleOf(orBundle))), c)
            case Failure(e) => err == Some(e)
            case Success(next) => err == None && next == State(root.Snapshot(), BundleOf(bundle))
    decreases c, 2
  {
    bundle := orBundle;
    if IsOr(c) {
      if bundle == null {
        bundle := new ElasticsearchBooleanQuery();
      }
      err := DispatchConvert(c, bundle, true);
      return;
    } else if bundle != null {
      root.filter := root.filter + [Sub(bundle.Snapshot())];
      bundle := null;
    }
    err := DispatchConvert(c, root, false);
  }

  /** `$this->{"convert{$whereData['type']}OperatorToBooleanQuery"}(...)`. */
  method DispatchConvert(c: Condition, q: ElasticsearchBooleanQuery, disjunctive: bool) returns (err: Option<Error>)
    modifies q
    ensures Converted(old(q.Snapshot()), q.Snapshot(), err, Apply(old(q.Snapshot()), c, disjunctive))
    decreases c, 1
  {
    match c.kind
    case Basic(_, _, _) => err := ConvertBasicOperatorToBooleanQuery(c, q, disjunctive);
    case Between(_, _, _) => ConvertBetweenOperatorToBooleanQuery(c, q, disjunctive); err := None;
    case In(_, _) => ConvertInOperatorToBooleanQuery(c, q, disjunctive); err := None;
    case Null(_) => ConvertNullOperatorToBooleanQuery(c, q, disjunctive); err := None;
    case Exists(_) => ConvertExistsOperatorToBooleanQuery(c, q, disjunctive); err := None;
    case StringStartWith(_, _) => ConvertStringStartWithOperatorToBooleanQuery(c, q, disjunctive); err := None;
    case StringEndWith(_, _) => ConvertStringEndWithOperatorToBooleanQuery(c, q, disjunctive); err := None;
    case StringContains(_, _) => ConvertStringContainsOperatorToBooleanQuery(c, q, disjunctive); err := None;
    case Nested(_) => err := ConvertNestedOperatorToBooleanQuery(c, q, disjunctive);
    case Unknown(name) => err := Some(UndefinedMethod("convert" + name + "OperatorToBooleanQuery"));
      assert ClauseOf(c) == Failure(err.value);
  }

  method ConvertBasicOperatorToBooleanQuery(c: Condition, q: ElasticsearchBooleanQuery, disjunctive: bool)
    returns (err: Option<Error>)
    requires c.kind.Basic?
    modifies q
    ensures Converted(old(q.Snapshot()), q.Snapshot(), err, Apply(old(q.Snapshot()), c, disjunctive))
  {
    var not := NotFlag(c);
    var field, op, value := c.kind.field, c.kind.operator, c.kind.value;
    err := None;
    if op == "=" || op == "eq" {
      q.Add(Clause(FieldClause("term", field, Atom(value))), not, disjunctive);
    } else if op == ">" || op == "gt" {
      q.Add(Clause(FieldClause("range", field, JMap([("gt", Atom(value))]))), not, disjunctive);
    } else if op == "<" || op == "lt" {
      q.Add(Clause(FieldClause("range", field, JMap([("lt", Atom(value))]))), not, disjunctive);
    } else if op == ">=" || op == "gte" {
      q.Add(Clause(FieldClause("range", field, JMap([("gte", Atom(value))]))), not, disjunctive);
    } else if op == "<=" || op == "lte" {
      q.Add(Clause(FieldClause("range", field, JMap([("lte", Atom(value))]))), not, disjunctive);
    } else if op == "!=" || op == "<>" || op == "neq" {
      q.Add(Clause(FieldClause("term", field, Atom(value))), !not, disjunctive);
    } else if op == "like" {
      var pattern := LikePattern(value);
      if pattern.Failure? {
        assert BasicClause(field, op, value, not) == Failure(pattern.error);
        assert Apply(q.Snapshot(), c, disjunctive) == Failure(pattern.error);
        return Some(pattern.error);
      }
      q.Add(Clause(FieldClause("wildcard", field, Atom(pattern.value))), not, disjunctive);
    }
  }

  method ConvertBetweenOperatorToBooleanQuery(c: Condition, q: ElasticsearchBooleanQuery, disjunctive: bool)
    requires c.kind.Between?
    modifies q
    ensures Apply(old(q.Snapshot()), c, disjunctive) == Success(q.Snapshot())
  {
    q.Add(Clause(BetweenClause(c.kind.field, c.kind.value, c.kind.secondValue)), NotFlag(c), disjunctive);
  }

  method ConvertInOperatorToBooleanQuery(c: Condition, q: ElasticsearchBooleanQuery, disjunctive: bool)
    requires c.kind.In?
    modifies q
    ensures Apply(old(q.Snapshot()), c, disjunctive) == Success(q.Snapshot())
  {
    q.Add(Clause(FieldClause("terms", c.kind.field, Atom(c.kind.values))), NotFlag(c), disjunctive);
  }

  method ConvertNullOperatorToBooleanQuery(c: Condition, q: ElasticsearchBooleanQuery, disjunctive: bool)
    requires c.kind.Null?
    modifies q
    ensures Apply(old(q.Snapshot()), c, disjunctive) == Success(q.Snapshot())
  {
    q.Add(Clause(ExistsClause(c.kind.field)), !NotFlag(c), disjunctive);
  }

  method ConvertExistsOperatorToBooleanQuery(c: Condition, q: ElasticsearchBooleanQuery, disjunctive: bool)
    requires c.kind.Exists?
    modifies q
    ensures Apply(old(q.Snapshot()), c, disjunctive) == Success(q.Snapshot())
  {
    q.Add(Clause(ExistsClause(c.kind.field)), NotFlag(c), disjunctive);
  }

  method ConvertStringStartWithOperatorToBooleanQuery(c: Condition, q: ElasticsearchBooleanQuery, disjunctive: bool)
    requires c.kind.StringStartWith?
    modifies q
    ensures Apply(old(q.Snapshot()), c, disjunctive) == Success(q.Snapshot())
  {
    q.Add(Clause(FieldClause("match_phrase_prefix", c.kind.field, Atom(c.kind.value))), NotFlag(c), disjunctive);
  }

  method ConvertStringEndWithOperatorToBooleanQuery(c: Condition, q: ElasticsearchBooleanQuery, disjunctive: bool)
    requires c.kind.StringEndWith?
    modifies q
    ensures Apply(old(q.Snapshot()), c, disjunctive) == Success(q.Snapshot())
  {
    var pattern := "*" + ToText(c.kind.value);
    q.Add(Clause(FieldClause("wildcard", c.kind.field, Atom(Str(pattern)))), NotFlag(c), disjunctive);
  }

  method ConvertStringContainsOperatorToBooleanQuery(c: Condition, q: ElasticsearchBooleanQuery, disjunctive: bool)
    requires c.kind.StringContains?
    modifies q
    ensures Apply(old(q.Snapshot()), c, disjunctive) == Success(q.Snapshot())
  {
    var pattern := "*" + ToText(c.kind.value) + "*";
    q.Add(Clause(FieldClause("wildcard", c.kind.field, Atom(Str(pattern)))), NotFlag(c), disjunctive);
  }

  method ConvertNestedOperatorToBooleanQuery(c: Condition, q: ElasticsearchBooleanQuery, disjunctive: bool)
    returns (err: Option<Error>)
    requires c.kind.Nested?
    modifies q
    ensures Converted(old(q.Snapshot()), q.Snapshot(), err, Apply(old(q.Snapshot()), c, disjunctive))
    decreases c, 0
  {
    err := None;
    if c.kind.query.Some? {
      var sub := ConvertBuilderDataToBooleanQuery(c.kind.query.value);
      if sub.Failure? {
        return Some(sub.error);
      }
      q.Add(Sub(sub.value.Snapshot()), NotFlag(c), disjunctive);
    }
  }

  // ---------------------------------------------------------------------
  // The rest of the request
  // ---------------------------------------------------------------------

  /** The paging options passed next to the builder; a missing or null option is None. */
  datatype Options = Options(page: Option<int>, perPage: Option<int>)

  /** What the request carries besides the index: each part is None when it is not set. */
  datatype SearchParameters = SearchParameters(
    query: Json,
    sort: Option<seq<Json>>,
    from: Option<int>,
    size: Option<int>)

  /** PHP's `empty` on a string: only "" and "0" are empty. */
  predicate EmptyText(s: string) {
    s == "" || s == "0"
  }

  /** The `must` entry `makeQuery` writes: a `query_string` search for a non-empty query, `match_all` otherwise. */
  function MustClause(query: string): Json {
    if !EmptyText(query) then JMap([("query_string", JMap([("query", Atom(Str(query)))]))])
    else JMap([("match_all", EmptyObject)])
  }

  /** `makeQuery`, as a value: the compiled node under `bool`, its `must` key overwritten. */
  function QuerySpec(b: Builder): Result<Json> {
    match CompileSpec(b)
    case Failure(e) => Failure(e)
    case Success(n) =>
      var entries := NodeJson(n).entries;
      Success(JMap([("bool", JMap(SetKey(entries, "must", MustClause(b.query))))]))
  }

  /** `makeQuery`. */
  method MakeQuery(b: Builder) returns (r: Result<Json>)
    ensures r == QuerySpec(b)
  {
    var compiled := ConvertBuilderDataToBooleanQuery(b);
    if compiled.Failure? {
      return Failure(compiled.error);
    }
    var data := compiled.value.ToArray();
    var entries := data.entries;
    entries := SetKey(entries, "must", MustClause(b.query));
    return Success(JMap([("bool", JMap(entries))]));
  }

  /** `makeSort`: one `[column => direction]` entry per order, None when there is no order. */
  function MakeSort(orders: seq<Order>): (r: Option<seq<Json>>)
    ensures r.None? <==> orders == []
    ensures r.Some? ==> |r.value| == |orders|
    ensures r.Some? ==> forall i :: 0 <= i < |orders| ==>
      r.value[i] == JMap([(orders[i].column, Atom(Str(orders[i].direction)))])
  {
    if orders == [] then None
    else
      var last := JMap([(orders[|orders| - 1].column, Atom(Str(orders[|orders| - 1].direction)))]);
      Some(MakeSort(orders[..|orders| - 1]).GetOr([]) + [last])
  }

  /** `makeFrom`: the offset of the first hit of the requested page, when both paging options are set. */
  function MakeFrom(options: Options): (r: Option<int>)
    ensures r.Some? <==> options.page.Some? && options.perPage.Some?
  {
    if options.page.Some? && options.perPage.Some? then
      Some((options.page.value - 1) * options.perPage.value)
    else
      None
  }

  /** `makeSize`: `perPage` when it is set, the builder's `limit` otherwise. */
  function MakeSize(b: Builder, options: Options): Option<int> {
    if options.perPage.Some? then options.perPage else b.limit
  }

  /** The `if ($x = ...)` guard of `makeFromBuilder`: null and 0 are falsy and are not applied. */
  function Truthy(v: Option<int>): (r: Option<int>)
    ensures r.Some? <==> v.Some? && v.value != 0
    ensures r.Some? ==> r == v
  {
    if v == Some(0) then None else v
  }

  /**
   * `makeFromBuilder` without the index: the query is always set; sort,
   * offset and size only when their value is truthy.
   */
  method MakeFromBuilder(b: Builder, options: Options) returns (r: Result<SearchParameters>)
    ensures r.Success? <==> CompileSpec(b).Success?
    ensures r.Failure? ==> r.error == CompileSpec(b).error
    ensures r.Success? ==> r.value == SearchParameters(QuerySpec(b).value, MakeSort(b.orders),
                                                        Truthy(MakeFrom(options)), Truthy(MakeSize(b, options)))
  {
    var query := MakeQuery(b);
    if query.Failure? {
      return Failure(query.error);
    }
    var parameters := SearchParameters(query.value, None, None, None);
    var sort := MakeSort(b.orders);
    if sort.Some? {
      parameters := parameters.(sort := sort);
    }
    var from := MakeFrom(options);
    if from.Some? && from.value != 0 {
      parameters := parameters.(from := from);
    }
    var size := MakeSize(b, options);
    if size.Some? && size.value != 0 {
      parameters := parameters.(size := size);
    }
    return Success(parameters);
  }
}
