/**
 * Worked examples of the compiler on small builders, stated on the
 * serialised `bool` query.
 */
module Scenarios {
  import opened Wire
  import opened BooleanQuery
  import opened Conditions
  import opened SearchParametersFactory

  function BuilderOf(ws: seq<Condition>): Builder {
    Builder([], ws, "", [], None)
  }

  function Term(field: string, v: Value): Json {
    JMap([("term", JMap([(field, Atom(v))]))])
  }

  /** A builder with one advanced condition: the condition alone decides the root. */
  lemma {:induction false} SingleCondition(c: Condition, or: bool, node: BoolNode)
    requires IsOr(c) == or
    requires Apply(Empty, c, or) == Success(node)
    ensures CompileSpec(BuilderOf([c]))
         == Success(if or then BoolNode([], [Sub(node)], [], []) else node)
  {
    var init := State(Empty, None);
    assert WheresNode([]) == Empty;
    assert [c][..0] == [];
    if or {
      assert Step(init, c) == Success(State(Empty, Some(node)));
      assert Scan([c], init) == Success(State(Empty, Some(node)));
      assert [] + [Sub(node)] == [Sub(node)];
    } else {
      assert Seal(init) == Empty;
      assert Step(init, c) == Success(State(node, None));
      assert Scan([c], init) == Success(State(node, None));
    }
  }

  /** One `>=` condition becomes one `range` filter with bound `gte`. */
  lemma {:induction false} RangeScenario()
    ensures var b := BuilderOf([Condition(Basic("age", ">=", Int(18)), Some("and"), Some(false))]);
      && CompileSpec(b).Success?
      && NodeJson(CompileSpec(b).value)
         == JMap([("filter", JList([JMap([("range", JMap([("age", JMap([("gte", Atom(Int(18)))]))]))])]))])
  {
    var c := Condition(Basic("age", ">=", Int(18)), Some("and"), Some(false));
    var clause := Clause(JMap([("range", JMap([("age", JMap([("gte", Atom(Int(18)))]))]))]));
    assert !IsEquality(">=") && RangeKey(">=") == Some("gte");
    assert ClauseOf(c) == Success(Some((clause, false)));
    assert Added(Empty, clause, false, false) == BoolNode([], [clause], [], []);
    SingleCondition(c, false, BoolNode([], [clause], [], []));
    assert ItemsJson([clause]) == [clause.body];
  }

  /**
   * `a AND (b OR ...)` in source order: the scan meets `b` first and opens a
   * bundle, `a` seals it, so `filter` holds the bundle and then `a`; `a` is
   * not part of the group.
   */
  lemma {:induction false} OrAfterAndScenario()
    ensures var b := BuilderOf([Condition(Basic("status", "=", Str("a")), Some("and"), None),
                                Condition(Basic("status", "=", Str("b")), Some("or"), None)]);
      && CompileSpec(b).Success?
      && NodeJson(CompileSpec(b).value)
         == JMap([("filter", JList([JMap([("should", JList([Term("status", Str("b"))]))]),
                                    Term("status", Str("a"))]))])
  {
    var a := Condition(Basic("status", "=", Str("a")), Some("and"), None);
    var o := Condition(Basic("status", "=", Str("b")), Some("or"), None);
    var bundle := BoolNode([], [], [Clause(Term("status", Str("b")))], []);
    var root := BoolNode([], [Sub(bundle)], [], []);
    var final := BoolNode([], [Sub(bundle), Clause(Term("status", Str("a")))], [], []);
    assert Scan([a, o], State(Empty, None)) == Scan([a], State(Empty, Some(bundle))) by {
      assert ClauseOf(o) == Success(Some((Clause(Term("status", Str("b"))), false)));
      assert Added(Empty, Clause(Term("status", Str("b"))), false, true) == bundle;
      assert Step(State(Empty, None), o) == Success(State(Empty, Some(bundle)));
      assert [a, o][..1] == [a];
    }
    assert Scan([a], State(Empty, Some(bundle))) == Success(State(final, None)) by {
      assert ClauseOf(a) == Success(Some((Clause(Term("status", Str("a"))), false)));
      assert Seal(State(Empty, Some(bundle))) == root;
      assert Added(root, Clause(Term("status", Str("a"))), false, false) == final;
      assert Step(State(Empty, Some(bundle)), a) == Success(State(final, None));
      assert [a][..0] == [];
    }
    assert CompileSpec(BuilderOf([a, o])) == Success(final) by {
      assert WheresNode([]) == Empty;
    }
    assert NodeJson(final)
        == JMap([("filter", JList([JMap([("should", JList([Term("status", Str("b"))]))]),
                                   Term("status", Str("a"))]))]) by {
      assert ItemsJson([Clause(Term("status", Str("b")))]) == [Term("status", Str("b"))];
      assert NodeJson(bundle) == JMap([("should", JList([Term("status", Str("b"))]))]);
      assert ItemsJson([Sub(bundle), Clause(Term("status", Str("a")))]) == [NodeJson(bundle), Term("status", Str("a"))];
    }
  }

  /** `like "abc%"` becomes the wildcard pattern `abc*`. */
  lemma {:induction false} LikeScenario()
    ensures ClauseOf(Condition(Basic("name", "like", Str("abc%")), None, None))
         == Success(Some((Clause(JMap([("wildcard", JMap([("name", Atom(Str("abc*")))]))])), false)))
  {
    assert ReplacePercent("abc%") == "abc*" by {
      assert "abc%"[1..] == "bc%" && "bc%"[1..] == "c%" && "c%"[1..] == "%";
    }
  }

  /** A `Null` condition that is not negated excludes documents where the field exists. */
  lemma {:induction false} NullScenario()
    ensures var b := BuilderOf([Condition(Null("f"), Some("and"), Some(false))]);
      && CompileSpec(b).Success?
      && NodeJson(CompileSpec(b).value)
         == JMap([("must_not", JList([JMap([("exists", JMap([("field", Atom(Str("f")))]))])]))])
  {
    var c := Condition(Null("f"), Some("and"), Some(false));
    var clause := Clause(JMap([("exists", JMap([("field", Atom(Str("f")))]))]));
    assert ClauseOf(c) == Success(Some((clause, true)));
    assert Added(Empty, clause, true, false) == BoolNode([], [], [], [clause]);
    SingleCondition(c, false, BoolNode([], [], [], [clause]));
    assert ItemsJson([clause]) == [clause.body];
  }

  /** A negated `or` condition is wrapped in its own node's `must_not` inside the bundle. */
  lemma {:induction false} NegatedOrScenario()
    ensures var b := BuilderOf([Condition(Exists("f"), Some("or"), Some(true))]);
      && CompileSpec(b).Success?
      && NodeJson(CompileSpec(b).value)
         == JMap([("filter", JList([JMap([("should", JList([
              JMap([("must_not", JList([JMap([("exists", JMap([("field", Atom(Str("f")))]))])]))])]))])]))])
  {
    var c := Condition(Exists("f"), Some("or"), Some(true));
    var clause := Clause(JMap([("exists", JMap([("field", Atom(Str("f")))]))]));
    var bundle := BoolNode([], [], [Sub(BoolNode([], [], [], [clause]))], []);
    assert ClauseOf(c) == Success(Some((clause, true)));
    assert Added(Empty, clause, true, true) == bundle;
    SingleCondition(c, true, bundle);
    assert ItemsJson([clause]) == [clause.body];
    assert NodeJson(BoolNode([], [], [], [clause])) == JMap([("must_not", JList([clause.body]))]);
    assert ItemsJson([Sub(BoolNode([], [], [], [clause]))]) == [NodeJson(BoolNode([], [], [], [clause]))];
    assert NodeJson(bundle) == JMap([("should", JList([NodeJson(BoolNode([], [], [], [clause]))]))]);
    assert ItemsJson([Sub(bundle)]) == [NodeJson(bundle)];
    assert CompileSpec(BuilderOf([c])) == Success(BoolNode([], [Sub(bundle)], [], []));
  }

  /** Two `and` conditions land in `filter` in reverse source order. */
  lemma {:induction false} ReverseOrderScenario()
    ensures var b := BuilderOf([Condition(Exists("x"), None, None), Condition(Exists("y"), None, None)]);
      && CompileSpec(b).Success?
      && CompileSpec(b).value.filter
         == [Clause(JMap([("exists", JMap([("field", Atom(Str("y")))]))])),
             Clause(JMap([("exists", JMap([("field", Atom(Str("x")))]))]))]
  {
    var x := Condition(Exists("x"), None, None);
    var y := Condition(Exists("y"), None, None);
    var ex := Clause(JMap([("exists", JMap([("field", Atom(Str("x")))]))]));
    var ey := Clause(JMap([("exists", JMap([("field", Atom(Str("y")))]))]));
    assert ClauseOf(x) == Success(Some((ex, false)));
    assert ClauseOf(y) == Success(Some((ey, false)));
    assert [x, y][..1] == [x] && [x][..0] == [];
    assert WheresNode([]) == Empty;
    assert Added(Empty, ey, false, false) == BoolNode([], [ey], [], []);
    assert Step(State(Empty, None), y) == Success(State(BoolNode([], [ey], [], []), None));
    assert Scan([x, y], State(Empty, None)) == Scan([x], State(BoolNode([], [ey], [], []), None));
  }

  /**
   * An `or` condition whose rule adds nothing (here an operator the `switch`
   * does not list) still opens a bundle, and the empty bundle is sealed into
   * `filter`: the root serialises to `filter` holding one empty array.
   */
  lemma {:induction false} DroppedOrScenario()
    ensures var b := BuilderOf([Condition(Basic("f", "~", Str("x")), Some("or"), None)]);
      && CompileSpec(b) == Success(BoolNode([], [Sub(Empty)], [], []))
      && NodeJson(CompileSpec(b).value) == JMap([("filter", JList([JMap([])]))])
  {
    var c := Condition(Basic("f", "~", Str("x")), Some("or"), None);
    assert BasicClause("f", "~", Str("x"), false) == Success(None);
    assert ClauseOf(c) == Success(None);
    SingleCondition(c, true, Empty);
    assert NodeJson(Empty) == JMap([]);
    assert ItemsJson([Sub(Empty)]) == [NodeJson(Empty)];
  }
}
