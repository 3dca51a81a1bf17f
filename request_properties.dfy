/**
 * Properties of the request parts assembled around the compiled query:
 * the `must` entry `makeQuery` writes, and the paging values and their
 * truthiness guard in `makeFromBuilder`.
 */
module RequestProperties {
  import opened Wire
  import opened BooleanQuery
  import opened Conditions
  import opened SearchParametersFactory
  import opened CompileProperties

  /** `must` holds a `query_string` search exactly when the query text is not empty, `match_all` otherwise. */
  lemma {:induction false} MustClauseCases(query: string)
    ensures MustClause(query).JMap? && |MustClause(query).entries| == 1
    ensures MustClause(query).entries[0].0 == (if EmptyText(query) then "match_all" else "query_string")
    ensures !EmptyText(query) ==> MustClause(query).entries[0].1 == JMap([("query", Atom(Str(query)))])
    ensures EmptyText(query) ==> MustClause(query).entries[0].1 == EmptyObject
  {
  }

  /** A key that `Lookup` does not find is not among the keys. */
  lemma {:induction false} LookupNoneNotInKeys(entries: seq<(string, Json)>, key: string)
    requires Lookup(entries, key).None?
    ensures key !in Keys(entries)
  {
  }

  /**
   * The compiled root never has a `must` slot, so `makeQuery` appends `must`
   * after the compiled keys and leaves every compiled key as it was.
   */
  lemma {:induction false} QueryMustLast(b: Builder)
    ensures QuerySpec(b).Success? <==> CompileSpec(b).Success?
    ensures CompileSpec(b).Success? ==>
      QuerySpec(b).value
      == JMap([("bool", JMap(NodeJson(CompileSpec(b).value).entries + [("must", MustClause(b.query))]))])
  {
    if CompileSpec(b).Success? {
      var n := CompileSpec(b).value;
      CompiledRootShape(b);
      NodeJsonSlots(n, "must");
      LookupNoneNotInKeys(NodeJson(n).entries, "must");
    }
  }

  /** Under `bool`, `must` is the search text clause and every other key is the compiled node's. */
  lemma {:induction false} QueryBoolKeys(b: Builder, key: string)
    requires CompileSpec(b).Success?
    ensures var entries := QuerySpec(b).value.entries[0].1.entries;
      && Lookup(entries, "must") == Some(MustClause(b.query))
      && (key != "must" ==> Lookup(entries, key) == Lookup(NodeJson(CompileSpec(b).value).entries, key))
  {
    QueryMustLast(b);
    var e := NodeJson(CompileSpec(b).value).entries;
    LookupAppend(e, [("must", MustClause(b.query))], key);
    LookupAppend(e, [("must", MustClause(b.query))], "must");
    NodeJsonSlots(CompileSpec(b).value, "must");
  }

  /** Consecutive pages start `perPage` hits apart: the pages tile the hits without gap or overlap. */
  lemma {:induction false} PagesTile(page: int, perPage: int)
    ensures MakeFrom(Options(Some(page + 1), Some(perPage))).value
         == MakeFrom(Options(Some(page), Some(perPage))).value + perPage
  {
  }

  /** The offset is sent exactly when both options are set, the page is not the first and `perPage` is not 0. */
  lemma {:induction false} FromSent(options: Options)
    ensures Truthy(MakeFrom(options)).Some?
        <==> && options.page.Some? && options.perPage.Some?
             && options.page.value != 1 && options.perPage.value != 0
  {
    if options.page.Some? && options.perPage.Some? {
      var p, q := options.page.value - 1, options.perPage.value;
      assert p * q == 0 <==> p == 0 || q == 0 by {
        if p != 0 && q != 0 {
          assert p * q != 0 by {
            if p > 0 && q > 0 { assert p * q >= q; }
            else if p < 0 && q < 0 { assert p * q >= -q; }
            else if p > 0 { assert p * q <= q; }
            else { assert p * q <= -q; }
          }
        }
      }
    }
  }

  /** On the first page no offset is sent. */
  lemma {:induction false} FirstPageSendsNoFrom(perPage: Option<int>)
    ensures Truthy(MakeFrom(Options(Some(1), perPage))) == None
  {
  }

  /**
   * `perPage` overrides the builder's `limit` as the size, even when it is 0:
   * then no size is sent at all and the limit is ignored.
   */
  lemma {:induction false} PerPageOverridesLimit(b: Builder, options: Options)
    requires options.perPage.Some?
    ensures Truthy(MakeSize(b, options)) == (if options.perPage.value == 0 then None else options.perPage)
  {
  }

  /** Without `perPage` the size is the builder's `limit`, sent when it is set and not 0. */
  lemma {:induction false} LimitAsSize(b: Builder, options: Options)
    requires options.perPage.None?
    ensures Truthy(MakeSize(b, options)).Some? <==> b.limit.Some? && b.limit.value != 0
    ensures Truthy(MakeSize(b, options)).Some? ==> Truthy(MakeSize(b, options)) == b.limit
  {
  }
}
