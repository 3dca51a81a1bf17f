/**
 * Properties of the compiler: the shape of the root it returns, the place
 * of the simple `wheres` clauses, and an independent description of the
 * OR grouping in terms of the maximal runs of `or` conditions.
 */
module CompileProperties {
  import opened Wire
  import opened BooleanQuery
  import opened Conditions
  import opened SearchParametersFactory

  // ---------------------------------------------------------------------
  // Shape of the root and of the bundles
  // ---------------------------------------------------------------------

  /** A node whose only non-empty slot may be `should`: what an OR bundle looks like. */
  predicate OnlyShould(n: BoolNode) {
    n.must == [] && n.filter == [] && n.mustNot == []
  }

  /** The root never receives `must` or `should` clauses; an open bundle only `should` clauses. */
  predicate Shaped(st: State) {
    && st.root.must == [] && st.root.should == []
    && (st.bundle.Some? ==> OnlyShould(st.bundle.value))
  }

  /** What one conversion rule can change in the node it is given. */
  lemma {:induction false} ApplyChanges(n: BoolNode, c: Condition, disjunctive: bool)
    ensures Apply(n, c, disjunctive).Success? ==>
      var r := Apply(n, c, disjunctive).value;
      && r.must == n.must
      && n.filter <= r.filter
      && (disjunctive ==> r.filter == n.filter && r.mustNot == n.mustNot)
      && (!disjunctive ==> r.should == n.should)
  {
    match ClauseOf(c)
    case Failure(_) =>
    case Success(None) =>
    case Success(Some((item, negated))) =>
      assert Apply(n, c, disjunctive) == Success(Added(n, item, negated, disjunctive));
  }

  lemma {:induction false} StepKeepsShape(st: State, c: Condition)
    requires Shaped(st)
    ensures Step(st, c).Success? ==> Shaped(Step(st, c).value)
  {
    ApplyChanges(st.bundle.GetOr(Empty), c, true);
    ApplyChanges(Seal(st), c, false);
  }

  lemma {:induction false} ScanKeepsShape(ws: seq<Condition>, st: State)
    requires Shaped(st)
    ensures Scan(ws, st).Success? ==> Shaped(Scan(ws, st).value)
    decreases |ws|
  {
    if ws != [] {
      match Step(st, ws[|ws| - 1])
      case Failure(_) =>
      case Success(next) =>
        StepKeepsShape(st, ws[|ws| - 1]);
        ScanKeepsShape(ws[..|ws| - 1], next);
    }
  }

  /**
   * The compiled root has empty `must` and `should` slots: every condition
   * reaches it with `should` false, and bundles go to `filter`.
   */
  lemma {:induction false} CompiledRootShape(b: Builder)
    ensures CompileSpec(b).Success? ==> CompileSpec(b).value.must == [] && CompileSpec(b).value.should == []
  {
    ScanKeepsShape(b.advancedWheres, State(WheresNode(b.wheres), None));
  }

  // ---------------------------------------------------------------------
  // The simple `wheres` clauses come first
  // ---------------------------------------------------------------------

  lemma {:induction false} StepExtendsFilter(st: State, c: Condition)
    ensures Step(st, c).Success? ==> st.root.filter <= Step(st, c).value.root.filter
  {
    ApplyChanges(Seal(st), c, false);
    assert st.root.filter <= Seal(st).filter;
  }

  lemma {:induction false} ScanExtendsFilter(ws: seq<Condition>, st: State)
    ensures Scan(ws, st).Success? ==> st.root.filter <= Scan(ws, st).value.root.filter
    decreases |ws|
  {
    if ws != [] {
      match Step(st, ws[|ws| - 1])
      case Failure(_) =>
      case Success(next) =>
        StepExtendsFilter(st, ws[|ws| - 1]);
        ScanExtendsFilter(ws[..|ws| - 1], next);
    }
  }

  /**
   * Each simple `wheres` entry contributes one `term`/`terms` clause to the
   * root's `filter`, in list order, ahead of every advanced-condition clause.
   */
  lemma {:induction false} WheresComeFirst(b: Builder)
    ensures CompileSpec(b).Success? ==>
      var root := CompileSpec(b).value;
      |b.wheres| <= |root.filter| && root.filter[..|b.wheres|] == WhereClauses(b.wheres)
  {
    var st := State(WheresNode(b.wheres), None);
    ScanExtendsFilter(b.advancedWheres, st);
    if Scan(b.advancedWheres, st).Success? {
      var last := Scan(b.advancedWheres, st).value;
      assert WhereClauses(b.wheres) <= last.root.filter <= Seal(last).filter;
    }
  }

  /** Without advanced conditions the root holds exactly the `wheres` clauses. */
  lemma {:induction false} OnlyWheres(b: Builder)
    requires b.advancedWheres == []
    ensures CompileSpec(b) == Success(BoolNode([], WhereClauses(b.wheres), [], []))
  {
  }

  // ---------------------------------------------------------------------
  // Reference description: maximal runs of `or` conditions
  // ---------------------------------------------------------------------

  /** A piece of the condition list: one non-`or` condition, or a maximal run of `or` conditions. */
  datatype Segment = Single(c: Condition) | OrRun(run: seq<Condition>)

  /** The length of the longest run of `or` conditions that ends the list. */
  function OrSuffixLen(ws: seq<Condition>): (k: nat)
    ensures k <= |ws|
    ensures forall j :: |ws| - k <= j < |ws| ==> IsOr(ws[j])
    ensures k < |ws| ==> !IsOr(ws[|ws| - k - 1])
  {
    if ws == [] || !IsOr(ws[|ws| - 1]) then 0
    else
      var k := OrSuffixLen(ws[..|ws| - 1]);
      assert forall j :: |ws| - 1 - k <= j < |ws| - 1 ==> ws[j] == ws[..|ws| - 1][j];
      k + 1
  }

  /** Splits the list into single non-`or` conditions and maximal runs of `or` conditions. */
  function Segments(ws: seq<Condition>): seq<Segment>
    decreases |ws|
  {
    if ws == [] then []
    else if !IsOr(ws[|ws| - 1]) then Segments(ws[..|ws| - 1]) + [Single(ws[|ws| - 1])]
    else
      var k := OrSuffixLen(ws);
      Segments(ws[..|ws| - k]) + [OrRun(ws[|ws| - k..])]
  }

  /** The conditions of a list of segments, in order. */
  function Flatten(segs: seq<Segment>): seq<Condition> {
    if segs == [] then []
    else
      Flatten(segs[..|segs| - 1])
      + match segs[|segs| - 1] case Single(c) => [c] case OrRun(run) => run
  }

  /** A segment list is well formed: singles are not `or`, runs are non-empty, all `or`, and maximal. */
  predicate WellFormed(segs: seq<Segment>) {
    && (forall i :: 0 <= i < |segs| ==> SegmentOk(segs[i]))
    && (forall i :: 0 <= i < |segs| - 1 ==> SeparatedAt(segs, i))
  }

  /** Of the segments at `i` and `i + 1`, at least one is a single: two runs are never adjacent. */
  predicate SeparatedAt(segs: seq<Segment>, i: nat)
    requires i + 1 < |segs|
  {
    segs[i].Single? || segs[i + 1].Single?
  }

  /** A single is not `or`; a run is non-empty and all `or`. */
  predicate SegmentOk(s: Segment) {
    match s
    case Single(c) => !IsOr(c)
    case OrRun(run) => run != [] && forall j :: 0 <= j < |run| ==> IsOr(run[j])
  }

  /** The segments partition the list, and every run of `or` conditions is maximal. */
  lemma {:induction false} SegmentsPartition(ws: seq<Condition>)
    ensures Flatten(Segments(ws)) == ws
    ensures WellFormed(Segments(ws))
    decreases |ws|, 1
  {
    if ws != [] {
      if IsOr(ws[|ws| - 1]) {
        PartitionRun(ws);
      } else {
        PartitionSingle(ws);
      }
    }
  }

  lemma {:induction false} PartitionRun(ws: seq<Condition>)
    requires ws != [] && IsOr(ws[|ws| - 1])
    ensures Flatten(Segments(ws)) == ws
    ensures WellFormed(Segments(ws))
    decreases |ws|, 0
  {
    var n := |ws|;
    var k := OrSuffixLen(ws);
    SegmentsPartition(ws[..n - k]);
    RunFlatten(ws);
    RunWellFormed(ws);
  }

  lemma {:induction false} RunFlatten(ws: seq<Condition>)
    requires ws != [] && IsOr(ws[|ws| - 1])
    requires Flatten(Segments(ws[..|ws| - OrSuffixLen(ws)])) == ws[..|ws| - OrSuffixLen(ws)]
    ensures Flatten(Segments(ws)) == ws
  {
    var n := |ws|;
    var k := OrSuffixLen(ws);
    var pre, run := ws[..n - k], ws[n - k..];
    SegmentsOfRun(ws);
    FlattenSnoc(Segments(pre), OrRun(run));
    assert Flatten(Segments(ws)) == pre + run;
    assert pre + run == ws;
  }

  lemma {:induction false} RunWellFormed(ws: seq<Condition>)
    requires ws != [] && IsOr(ws[|ws| - 1])
    requires WellFormed(Segments(ws[..|ws| - OrSuffixLen(ws)]))
    ensures WellFormed(Segments(ws))
  {
    var n := |ws|;
    var k := OrSuffixLen(ws);
    var pre, run := ws[..n - k], ws[n - k..];
    SegmentsOfRun(ws);
    if pre != [] {
      assert pre[|pre| - 1] == ws[n - k - 1];
      SegmentsEndSingle(pre);
    }
    assert SegmentOk(OrRun(run));
    WellFormedSnoc(Segments(pre), OrRun(run));
  }

  lemma {:induction false} PartitionSingle(ws: seq<Condition>)
    requires ws != [] && !IsOr(ws[|ws| - 1])
    ensures Flatten(Segments(ws)) == ws
    ensures WellFormed(Segments(ws))
    decreases |ws|, 0
  {
    var n := |ws|;
    var pre := ws[..n - 1];
    SegmentsPartition(pre);
    assert Segments(ws) == Segments(pre) + [Single(ws[n - 1])];
    FlattenSnoc(Segments(pre), Single(ws[n - 1]));
    assert pre + [ws[n - 1]] == ws;
    WellFormedSnoc(Segments(pre), Single(ws[n - 1]));
  }

  lemma {:induction false} FlattenSnoc(segs: seq<Segment>, s: Segment)
    ensures Flatten(segs + [s]) == Flatten(segs) + match s case Single(c) => [c] case OrRun(run) => run
  {
    assert (segs + [s])[..|segs|] == segs;
  }

  lemma {:induction false} WellFormedSnoc(segs: seq<Segment>, s: Segment)
    requires WellFormed(segs)
    requires SegmentOk(s)
    requires s.OrRun? && segs != [] ==> segs[|segs| - 1].Single?
    ensures WellFormed(segs + [s])
  {
    var t := segs + [s];
    forall i | 0 <= i < |t| - 1
      ensures SeparatedAt(t, i)
    {
      if i < |segs| - 1 {
        assert SeparatedAt(segs, i);
        assert t[i] == segs[i] && t[i + 1] == segs[i + 1];
      }
    }
  }

  /** A list that ends with a non-`or` condition ends with a single segment. */
  lemma {:induction false} SegmentsEndSingle(ws: seq<Condition>)
    requires ws != [] && !IsOr(ws[|ws| - 1])
    ensures Segments(ws) != [] && Segments(ws)[|Segments(ws)| - 1].Single?
  {
  }

  /** Applies each condition of `cs` to `n`, last condition first. */
  function ApplyAll(n: BoolNode, cs: seq<Condition>, disjunctive: bool): Result<BoolNode>
    decreases |cs|
  {
    if cs == [] then Success(n)
    else
      match Apply(n, cs[|cs| - 1], disjunctive)
      case Failure(e) => Failure(e)
      case Success(next) => ApplyAll(next, cs[..|cs| - 1], disjunctive)
  }

  /**
   * The reference compilation, segment by segment from the last: a single
   * condition goes to the root with `should` false; a run of `or`
   * conditions is applied, with `should` true, to a fresh node that is then
   * appended to the root's `filter`.
   */
  function FromSegments(root: BoolNode, segs: seq<Segment>): Result<BoolNode>
    decreases |segs|
  {
    if segs == [] then Success(root)
    else
      match segs[|segs| - 1]
      case Single(c) =>
        (match Apply(root, c, false)
         case Failure(e) => Failure(e)
         case Success(next) => FromSegments(next, segs[..|segs| - 1]))
      case OrRun(run) =>
        (match ApplyAll(Empty, run, true)
         case Failure(e) => Failure(e)
         case Success(bundle) => FromSegments(root.(filter := root.filter + [Sub(bundle)]), segs[..|segs| - 1]))
  }

  /** While a bundle is open, a trailing run of `or` conditions all go into it. */
  lemma {:induction false} OpenBundle(ws: seq<Condition>, root: BoolNode, bundle: BoolNode, k: nat)
    requires k <= |ws|
    requires forall j :: |ws| - k <= j < |ws| ==> IsOr(ws[j])
    ensures Scan(ws, State(root, Some(bundle)))
         == match ApplyAll(bundle, ws[|ws| - k..], true)
            case Failure(e) => Failure(e)
            case Success(full) => Scan(ws[..|ws| - k], State(root, Some(full)))
    decreases k
  {
    var n := |ws|;
    if k == 0 {
      assert ws[n..] == [] && ws[..n] == ws;
    } else {
      var run := ws[n - k..];
      assert run[|run| - 1] == ws[n - 1];
      assert run[..|run| - 1] == ws[..n - 1][n - k..];
      assert ws[..n - 1][..n - k] == ws[..n - k];
      match Apply(bundle, ws[n - 1], true)
      case Failure(e) =>
      case Success(next) =>
        OpenBundle(ws[..n - 1], root, next, k - 1);
    }
  }

  /**
   * An open bundle met by a non-`or` condition is sealed into `filter`
   * first: the condition sees the same root as if the bundle had already
   * been sealed.
   */
  lemma {:induction false} SealBeforeStep(c: Condition, root: BoolNode, bundle: BoolNode)
    requires !IsOr(c)
    ensures Step(State(root, Some(bundle)), c) == Step(State(root.(filter := root.filter + [Sub(bundle)]), None), c)
  {
  }

  lemma {:induction false} ScanBySegments(ws: seq<Condition>, root: BoolNode)
    ensures Finish(Scan(ws, State(root, None))) == FromSegments(root, Segments(ws))
    decreases |ws|, 1
  {
    if ws == [] {
    } else if !IsOr(ws[|ws| - 1]) {
      ScanBySegmentsSingle(ws, root);
    } else {
      ScanBySegmentsRun(ws, root);
    }
  }

  lemma {:induction false} ScanBySegmentsSingle(ws: seq<Condition>, root: BoolNode)
    requires ws != [] && !IsOr(ws[|ws| - 1])
    ensures Finish(Scan(ws, State(root, None))) == FromSegments(root, Segments(ws))
    decreases |ws|, 0
  {
    var n := |ws|;
    var segs := Segments(ws);
    assert segs == Segments(ws[..n - 1]) + [Single(ws[n - 1])];
    assert segs[..|segs| - 1] == Segments(ws[..n - 1]);
    match Apply(root, ws[n - 1], false)
    case Failure(e) =>
    case Success(next) =>
      ScanBySegments(ws[..n - 1], next);
  }

  lemma {:induction false} ScanBySegmentsRun(ws: seq<Condition>, root: BoolNode)
    requires ws != [] && IsOr(ws[|ws| - 1])
    ensures Finish(Scan(ws, State(root, None))) == FromSegments(root, Segments(ws))
    decreases |ws|, 0
  {
    var n := |ws|;
    var k := OrSuffixLen(ws);
    var pre := ws[..n - k];
    match ApplyAll(Empty, ws[n - k..], true)
    case Failure(e) =>
      assert FromSegments(root, Segments(ws)) == Failure(e) by {
        SegmentsOfRun(ws);
        FromSegmentsRun(root, Segments(pre), ws[n - k..]);
      }
      assert Finish(Scan(ws, State(root, None))) == Failure(e) by { ScanOfRun(ws, root); }
    case Success(bundle) =>
      var sealed := root.(filter := root.filter + [Sub(bundle)]);
      assert FromSegments(root, Segments(ws)) == FromSegments(sealed, Segments(pre)) by {
        SegmentsOfRun(ws);
        FromSegmentsRun(root, Segments(pre), ws[n - k..]);
      }
      ScanOfRunSealed(ws, root, k, bundle);
      ScanBySegments(pre, sealed);
  }

  /** A list that ends with an `or` condition ends with the segment of its trailing run. */
  lemma {:induction false} SegmentsOfRun(ws: seq<Condition>)
    requires ws != [] && IsOr(ws[|ws| - 1])
    ensures Segments(ws) == Segments(ws[..|ws| - OrSuffixLen(ws)]) + [OrRun(ws[|ws| - OrSuffixLen(ws)..])]
  {
  }

  /** The reference on a segment list that ends with a run: the run's bundle is sealed first. */
  lemma {:induction false} FromSegmentsRun(root: BoolNode, segs: seq<Segment>, run: seq<Condition>)
    ensures var r := ApplyAll(Empty, run, true);
      && (r.Failure? ==> FromSegments(root, segs + [OrRun(run)]) == Failure(r.error))
      && (r.Success? ==> FromSegments(root, segs + [OrRun(run)])
                         == FromSegments(root.(filter := root.filter + [Sub(r.value)]), segs))
  {
    assert (segs + [OrRun(run)])[..|segs|] == segs;
  }

  /** `ScanOfRun` for a run that compiles to `bundle`. */
  lemma {:induction false} ScanOfRunSealed(ws: seq<Condition>, root: BoolNode, k: nat, bundle: BoolNode)
    requires ws != [] && IsOr(ws[|ws| - 1])
    requires k == OrSuffixLen(ws)
    requires ApplyAll(Empty, ws[|ws| - k..], true) == Success(bundle)
    ensures Finish(Scan(ws, State(root, None)))
         == Finish(Scan(ws[..|ws| - k], State(root.(filter := root.filter + [Sub(bundle)]), None)))
  {
    ScanOfRun(ws, root);
  }

  /** With no bundle open, an `or` condition opens an empty one. */
  lemma {:induction false} OpenEmpty(ws: seq<Condition>, root: BoolNode)
    requires ws != [] && IsOr(ws[|ws| - 1])
    ensures Scan(ws, State(root, None)) == Scan(ws, State(root, Some(Empty)))
  {
  }

  /** The scan over a list that ends with a run of `or` conditions: the run becomes one bundle. */
  lemma {:induction false} ScanOfRun(ws: seq<Condition>, root: BoolNode)
    requires ws != [] && IsOr(ws[|ws| - 1])
    ensures var k := OrSuffixLen(ws);
      var r := ApplyAll(Empty, ws[|ws| - k..], true);
      && (r.Failure? ==> Finish(Scan(ws, State(root, None))) == Failure(r.error))
      && (r.Success? ==> Finish(Scan(ws, State(root, None)))
                         == Finish(Scan(ws[..|ws| - k], State(root.(filter := root.filter + [Sub(r.value)]), None))))
  {
    var n := |ws|;
    var k := OrSuffixLen(ws);
    var pre := ws[..n - k];
    assert Scan(ws, State(root, None)) == Scan(ws, State(root, Some(Empty))) by { OpenEmpty(ws, root); }
    OpenBundle(ws, root, Empty, k);
    match ApplyAll(Empty, ws[n - k..], true)
    case Failure(e) =>
    case Success(bundle) =>
      assert Scan(ws, State(root, None)) == Scan(pre, State(root, Some(bundle)));
      var sealed := root.(filter := root.filter + [Sub(bundle)]);
      assert Finish(Scan(pre, State(root, Some(bundle)))) == Finish(Scan(pre, State(sealed, None))) by {
        if pre != [] {
          assert pre[|pre| - 1] == ws[n - k - 1];
          SealBeforeScan(pre, root, bundle);
        }
      }
  }

  /** A list that ends with a non-`or` condition sees an open bundle as already sealed. */
  lemma {:induction false} SealBeforeScan(ws: seq<Condition>, root: BoolNode, bundle: BoolNode)
    requires ws != [] && !IsOr(ws[|ws| - 1])
    ensures Scan(ws, State(root, Some(bundle))) == Scan(ws, State(root.(filter := root.filter + [Sub(bundle)]), None))
  {
    SealBeforeStep(ws[|ws| - 1], root, bundle);
  }

  /**
   * The compiler's OR grouping agrees with the reference: each maximal run of
   * consecutive `or` conditions becomes exactly one bundle in the root's
   * `filter`, and every other condition is applied to the root itself, all
   * in reverse list order.
   */
  lemma {:induction false} CompileBySegments(b: Builder)
    ensures CompileSpec(b) == FromSegments(WheresNode(b.wheres), Segments(b.advancedWheres))
  {
    ScanBySegments(b.advancedWheres, WheresNode(b.wheres));
  }

  /** A bundle built from a run has `should` as its only non-empty slot. */
  lemma {:induction false} BundleOnlyShould(n: BoolNode, cs: seq<Condition>)
    requires OnlyShould(n)
    ensures ApplyAll(n, cs, true).Success? ==> OnlyShould(ApplyAll(n, cs, true).value)
    ensures ApplyAll(n, cs, true).Success? ==> |ApplyAll(n, cs, true).value.should| <= |n.should| + |cs|
    decreases |cs|
  {
    if cs != [] {
      match Apply(n, cs[|cs| - 1], true)
      case Failure(_) =>
      case Success(next) =>
        assert |next.should| <= |n.should| + 1;
        BundleOnlyShould(next, cs[..|cs| - 1]);
    }
  }

  // ---------------------------------------------------------------------
  // Lists with a single connective
  // ---------------------------------------------------------------------

  lemma {:induction false} ScanWithoutOr(ws: seq<Condition>, root: BoolNode)
    requires forall j :: 0 <= j < |ws| ==> !IsOr(ws[j])
    ensures Scan(ws, State(root, None))
         == match ApplyAll(root, ws, false)
            case Failure(e) => Failure(e)
            case Success(r) => Success(State(r, None))
    decreases |ws|
  {
    if ws != [] {
      match Apply(root, ws[|ws| - 1], false)
      case Failure(_) =>
      case Success(next) =>
        ScanWithoutOr(ws[..|ws| - 1], next);
    }
  }

  /**
   * Without `or` conditions no bundle is opened: every condition is applied
   * to the root with `should` false, so it lands in `filter` or `must_not`.
   */
  lemma {:induction false} AllAnd(b: Builder)
    requires forall j :: 0 <= j < |b.advancedWheres| ==> !IsOr(b.advancedWheres[j])
    ensures CompileSpec(b) == ApplyAll(WheresNode(b.wheres), b.advancedWheres, false)
  {
    ScanWithoutOr(b.advancedWheres, WheresNode(b.wheres));
  }

  /**
   * When every advanced condition is `or`, they all go into one bundle,
   * which is appended to `filter` after the `wheres` clauses.
   */
  lemma {:induction false} AllOr(b: Builder)
    requires b.advancedWheres != []
    requires forall j :: 0 <= j < |b.advancedWheres| ==> IsOr(b.advancedWheres[j])
    ensures CompileSpec(b)
         == match ApplyAll(Empty, b.advancedWheres, true)
            case Failure(e) => Failure(e)
            case Success(bundle) => Success(BoolNode([], WhereClauses(b.wheres) + [Sub(bundle)], [], []))
  {
    var ws := b.advancedWheres;
    var root := WheresNode(b.wheres);
    OpenEmpty(ws, root);
    OpenBundle(ws, root, Empty, |ws|);
    assert ws[|ws| - |ws|..] == ws && ws[..|ws| - |ws|] == [];
  }

  // ---------------------------------------------------------------------
  // Where each entry lands, for conditions that add one
  // ---------------------------------------------------------------------

  /** A condition whose rule adds exactly one entry (it neither fails nor is dropped). */
  predicate Adds(c: Condition) {
    ClauseOf(c).Success? && ClauseOf(c).value.Some?
  }

  predicate AllAdd(cs: seq<Condition>) {
    forall j :: 0 <= j < |cs| ==> Adds(cs[j])
  }

  /** The entry such a condition adds. */
  function Entry(c: Condition): Item
    requires Adds(c)
  {
    ClauseOf(c).value.value.0
  }

  /** The negation flag such a condition passes to `add`. */
  function Negated(c: Condition): bool
    requires Adds(c)
  {
    ClauseOf(c).value.value.1
  }

  lemma {:induction false} AllAddInit(cs: seq<Condition>)
    requires cs != [] && AllAdd(cs)
    ensures AllAdd(cs[..|cs| - 1]) && Adds(cs[|cs| - 1])
  {
    assert forall j :: 0 <= j < |cs| - 1 ==> cs[..|cs| - 1][j] == cs[j];
  }

  /** The `filter` entries of the non-negated conditions, last condition first. */
  function FilterItems(cs: seq<Condition>): seq<Item>
    requires AllAdd(cs)
  {
    if cs == [] then []
    else
      AllAddInit(cs);
      var last := cs[|cs| - 1];
      (if Negated(last) then [] else [Entry(last)]) + FilterItems(cs[..|cs| - 1])
  }

  /** The `must_not` entries of the negated conditions, last condition first. */
  function MustNotItems(cs: seq<Condition>): seq<Item>
    requires AllAdd(cs)
  {
    if cs == [] then []
    else
      AllAddInit(cs);
      var last := cs[|cs| - 1];
      (if Negated(last) then [Entry(last)] else []) + MustNotItems(cs[..|cs| - 1])
  }

  /** The `should` entries of a bundle, last condition first; a negated entry is wrapped in its own `must_not` node. */
  function ShouldItems(cs: seq<Condition>): seq<Item>
    requires AllAdd(cs)
  {
    if cs == [] then []
    else
      AllAddInit(cs);
      var last := cs[|cs| - 1];
      [if Negated(last) then Sub(Negation(Entry(last))) else Entry(last)] + ShouldItems(cs[..|cs| - 1])
  }

  /** Applying a list whose last condition adds an entry: that entry goes in first. */
  lemma {:induction false} ApplyAllLast(n: BoolNode, cs: seq<Condition>, disjunctive: bool)
    requires cs != [] && Adds(cs[|cs| - 1])
    ensures ApplyAll(n, cs, disjunctive)
         == ApplyAll(Added(n, Entry(cs[|cs| - 1]), Negated(cs[|cs| - 1]), disjunctive), cs[..|cs| - 1], disjunctive)
  {
    var last := cs[|cs| - 1];
    assert Apply(n, last, disjunctive) == Success(Added(n, Entry(last), Negated(last), disjunctive));
  }

  /** The slot contents after one conjunctive entry agree with the unfolded lists. */
  lemma {:induction false} ConjunctSlots(n: BoolNode, cs: seq<Condition>)
    requires cs != [] && AllAdd(cs)
    ensures AllAdd(cs[..|cs| - 1]) && Adds(cs[|cs| - 1])
    ensures var next := Added(n, Entry(cs[|cs| - 1]), Negated(cs[|cs| - 1]), false);
      next.(filter := next.filter + FilterItems(cs[..|cs| - 1]), mustNot := next.mustNot + MustNotItems(cs[..|cs| - 1]))
      == n.(filter := n.filter + FilterItems(cs), mustNot := n.mustNot + MustNotItems(cs))
  {
    ItemsSnoc(cs);
    var last, init := cs[|cs| - 1], cs[..|cs| - 1];
    if Negated(last) {
      assert n.mustNot + ([Entry(last)] + MustNotItems(init)) == (n.mustNot + [Entry(last)]) + MustNotItems(init);
      assert [] + FilterItems(init) == FilterItems(init);
    } else {
      assert n.filter + ([Entry(last)] + FilterItems(init)) == (n.filter + [Entry(last)]) + FilterItems(init);
      assert [] + MustNotItems(init) == MustNotItems(init);
    }
  }

  /** The `should` slot after one disjunctive entry agrees with the unfolded list. */
  lemma {:induction false} DisjunctSlot(n: BoolNode, cs: seq<Condition>)
    requires cs != [] && AllAdd(cs)
    ensures AllAdd(cs[..|cs| - 1]) && Adds(cs[|cs| - 1])
    ensures var next := Added(n, Entry(cs[|cs| - 1]), Negated(cs[|cs| - 1]), true);
      next.(should := next.should + ShouldItems(cs[..|cs| - 1])) == n.(should := n.should + ShouldItems(cs))
  {
    ItemsSnoc(cs);
    var last, init := cs[|cs| - 1], cs[..|cs| - 1];
    var e := if Negated(last) then Sub(Negation(Entry(last))) else Entry(last);
    assert n.should + ([e] + ShouldItems(init)) == (n.should + [e]) + ShouldItems(init);
  }

  /**
   * Conditions applied with `should` false: each non-negated entry lands in
   * `filter`, each negated one in `must_not`, both in reverse order.
   */
  lemma {:induction false} ApplyAllConjuncts(n: BoolNode, cs: seq<Condition>)
    requires AllAdd(cs)
    ensures ApplyAll(n, cs, false)
         == Success(n.(filter := n.filter + FilterItems(cs), mustNot := n.mustNot + MustNotItems(cs)))
    decreases |cs|
  {
    if cs == [] {
      assert n.filter + [] == n.filter && n.mustNot + [] == n.mustNot;
    } else {
      ConjunctSlots(n, cs);
      var last := cs[|cs| - 1];
      ApplyAllLast(n, cs, false);
      ApplyAllConjuncts(Added(n, Entry(last), Negated(last), false), cs[..|cs| - 1]);
    }
  }

  /** One unfolding of the three entry lists. */
  lemma {:induction false} ItemsSnoc(cs: seq<Condition>)
    requires cs != [] && AllAdd(cs)
    ensures AllAdd(cs[..|cs| - 1]) && Adds(cs[|cs| - 1])
    ensures var last, init := cs[|cs| - 1], cs[..|cs| - 1];
      && FilterItems(cs) == (if Negated(last) then [] else [Entry(last)]) + FilterItems(init)
      && MustNotItems(cs) == (if Negated(last) then [Entry(last)] else []) + MustNotItems(init)
      && ShouldItems(cs) == [if Negated(last) then Sub(Negation(Entry(last))) else Entry(last)] + ShouldItems(init)
  {
    AllAddInit(cs);
  }

  /**
   * Conditions applied with `should` true: one `should` entry per condition,
   * in reverse order, and no other slot changes.
   */
  lemma {:induction false} ApplyAllDisjuncts(n: BoolNode, cs: seq<Condition>)
    requires AllAdd(cs)
    ensures ApplyAll(n, cs, true) == Success(n.(should := n.should + ShouldItems(cs)))
    ensures |ShouldItems(cs)| == |cs|
    decreases |cs|
  {
    if cs == [] {
      assert n.should + [] == n.should;
    } else {
      DisjunctSlot(n, cs);
      var last := cs[|cs| - 1];
      ApplyAllLast(n, cs, true);
      ApplyAllDisjuncts(Added(n, Entry(last), Negated(last), true), cs[..|cs| - 1]);
    }
  }

  /**
   * Without `or` conditions, the root's `filter` is the `wheres` clauses
   * followed by the non-negated conditions' entries in reverse source order,
   * `must_not` holds the negated conditions' entries in reverse source
   * order, and nothing else is set.
   */
  lemma {:induction false} AndOrderReversed(b: Builder)
    requires forall j :: 0 <= j < |b.advancedWheres| ==> !IsOr(b.advancedWheres[j])
    requires AllAdd(b.advancedWheres)
    ensures CompileSpec(b)
         == Success(BoolNode([], WhereClauses(b.wheres) + FilterItems(b.advancedWheres), [],
                             MustNotItems(b.advancedWheres)))
  {
    AllAnd(b);
    ApplyAllConjuncts(WheresNode(b.wheres), b.advancedWheres);
    assert [] + MustNotItems(b.advancedWheres) == MustNotItems(b.advancedWheres);
  }

  /**
   * When every advanced condition is `or`, the one bundle holds exactly one
   * `should` entry per condition, in reverse source order, negated ones
   * wrapped in their own `must_not` node.
   */
  lemma {:induction false} OrBundleContents(b: Builder)
    requires b.advancedWheres != []
    requires forall j :: 0 <= j < |b.advancedWheres| ==> IsOr(b.advancedWheres[j])
    requires AllAdd(b.advancedWheres)
    ensures CompileSpec(b)
         == Success(BoolNode([], WhereClauses(b.wheres) + [Sub(BoolNode([], [], ShouldItems(b.advancedWheres), []))], [], []))
    ensures |ShouldItems(b.advancedWheres)| == |b.advancedWheres|
  {
    AllOr(b);
    ApplyAllDisjuncts(Empty, b.advancedWheres);
    assert [] + ShouldItems(b.advancedWheres) == ShouldItems(b.advancedWheres);
  }
}
