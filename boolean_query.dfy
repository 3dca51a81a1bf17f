/**
 * The `bool` query node: four ordered clause lists `must`, `filter`,
 * `should` and `must_not`, the rule that places a clause in one of them,
 * and the serialisation to the wire format.
 *
 * `ElasticsearchBooleanQuery` is the mutable object; `BoolNode` is its value.
 * A node stored inside another node is stored as its value: every child is
 * complete when it is attached and nothing changes it afterwards.
 */
module BooleanQuery {
  import opened Wire

  /** One entry of a clause list: a literal clause, or a nested bool node. */
  datatype Item = Clause(body: Json) | Sub(node: BoolNode)

  datatype BoolNode = BoolNode(must: seq<Item>, filter: seq<Item>, should: seq<Item>, mustNot: seq<Item>)

  const Empty := BoolNode([], [], [], [])

  /** Total number of entries over the four clause lists. */
  function Size(n: BoolNode): nat {
    |n.must| + |n.filter| + |n.should| + |n.mustNot|
  }

  /** The child node that expresses "not c" as one alternative of a disjunction. */
  function Negation(c: Item): (r: BoolNode)
    ensures r.must == r.filter == r.should == [] && r.mustNot == [c]
  {
    BoolNode([], [], [], [c])
  }

  /**
   * The placement rule of `add`: a negated clause goes to `must_not`, a
   * disjunctive one to `should`, a negated disjunctive one is wrapped alone
   * in a fresh node's `must_not` and that node goes to `should`, and any
   * other clause goes to `filter`.
   */
  function Added(n: BoolNode, c: Item, negated: bool, disjunctive: bool): (r: BoolNode)
    ensures r.must == n.must
    ensures r.filter == if !negated && !disjunctive then n.filter + [c] else n.filter
    ensures r.should == if !disjunctive then n.should
                        else n.should + [if negated then Sub(Negation(c)) else c]
    ensures r.mustNot == if negated && !disjunctive then n.mustNot + [c] else n.mustNot
  {
    if negated then
      if disjunctive then n.(should := n.should + [Sub(Negation(c))])
      else n.(mustNot := n.mustNot + [c])
    else
      if disjunctive then n.(should := n.should + [c])
      else n.(filter := n.filter + [c])
  }

  /** Every `add` grows exactly one clause list by one entry and never touches `must`. */
  lemma {:induction false} AddedGrowsOneList(n: BoolNode, c: Item, negated: bool, disjunctive: bool)
    ensures var r := Added(n, c, negated, disjunctive);
      && Size(r) == Size(n) + 1
      && r.must == n.must
      && (r.filter != n.filter) == (!negated && !disjunctive)
      && (r.should != n.should) == disjunctive
      && (r.mustNot != n.mustNot) == (negated && !disjunctive)
  {
    var r := Added(n, c, negated, disjunctive);
    assert |r.filter| == |n.filter| + (if !negated && !disjunctive then 1 else 0);
    assert |r.should| == |n.should| + (if disjunctive then 1 else 0);
    assert |r.mustNot| == |n.mustNot| + (if negated && !disjunctive then 1 else 0);
  }

  // ---------------------------------------------------------------------
  // Serialisation
  // ---------------------------------------------------------------------

  /** A leaf clause is copied unchanged, a nested node is serialised in turn. */
  function ItemJson(it: Item): Json
    decreases it
  {
    match it
    case Clause(body) => body
    case Sub(node) => NodeJson(node)
  }

  /** The serialised list of a slot: same length, same order, item by item. */
  function ItemsJson(items: seq<Item>): (r: seq<Json>)
    ensures |r| == |items|
    ensures forall i :: 0 <= i < |items| ==> r[i] == ItemJson(items[i])
    decreases items, 0
  {
    if items == [] then []
    else [ItemJson(items[0])] + ItemsJson(items[1..])
  }

  /** The entry for one slot: absent when the slot is empty. */
  function SlotEntry(key: string, items: seq<Item>): seq<(string, Json)>
    decreases items, 1
  {
    if items == [] then [] else [(key, JList(ItemsJson(items)))]
  }

  /** `toArray`: the keyed array with keys `must`, `filter`, `should`, `must_not`, empty slots left out. */
  function NodeJson(n: BoolNode): Json
    decreases n
  {
    JMap(SlotEntry("must", n.must) + SlotEntry("filter", n.filter)
         + SlotEntry("should", n.should) + SlotEntry("must_not", n.mustNot))
  }

  /** Position of a key in the fixed key order of a serialised node. */
  function KeyRank(key: string): nat {
    if key == "must" then 0
    else if key == "filter" then 1
    else if key == "should" then 2
    else if key == "must_not" then 3
    else 4
  }

  /** The serialised list of a slot, as `toArray` stores it, or None when the key is absent. */
  function SlotJson(items: seq<Item>): Option<Json> {
    if items == [] then None else Some(JList(ItemsJson(items)))
  }

  /**
   * Each of the four keys is present exactly when its slot is non-empty, and
   * then holds the slot's serialised list; no other key is present.
   */
  lemma {:induction false} NodeJsonSlots(n: BoolNode, k: string)
    ensures NodeJson(n).JMap?
    ensures Lookup(NodeJson(n).entries, k)
         == if k == "must" then SlotJson(n.must)
            else if k == "filter" then SlotJson(n.filter)
            else if k == "should" then SlotJson(n.should)
            else if k == "must_not" then SlotJson(n.mustNot)
            else None
  {
    var m, f, s, x := SlotEntry("must", n.must), SlotEntry("filter", n.filter),
                      SlotEntry("should", n.should), SlotEntry("must_not", n.mustNot);
    assert NodeJson(n).entries == m + (f + (s + x));
    LookupAppend(m, f + (s + x), k);
    LookupAppend(f, s + x, k);
    LookupAppend(s, x, k);
    LookupSlot("must", n.must, k);
    LookupSlot("filter", n.filter, k);
    LookupSlot("should", n.should, k);
    LookupSlot("must_not", n.mustNot, k);
  }

  /** The entry of one slot holds its key and nothing else. */
  lemma {:induction false} LookupSlot(key: string, items: seq<Item>, k: string)
    ensures Lookup(SlotEntry(key, items), k) == if k == key then SlotJson(items) else None
  {
    if items != [] {
      assert SlotEntry(key, items)[1..] == [];
    }
  }

  /** Looking a key up in a concatenation looks in the first part first. */
  lemma {:induction false} LookupAppend(a: seq<(string, Json)>, b: seq<(string, Json)>, key: string)
    ensures Lookup(a + b, key) == if Lookup(a, key).Some? then Lookup(a, key) else Lookup(b, key)
  {
    if a != [] {
      assert (a + b)[1..] == a[1..] + b;
      LookupAppend(a[1..], b, key);
    } else {
      assert a + b == b;
    }
  }

  /** The keys of a serialised node appear in the order must, filter, should, must_not. */
  lemma {:induction false} NodeJsonKeyOrder(n: BoolNode)
    ensures NodeJson(n).JMap?
    ensures var e := NodeJson(n).entries;
      forall i, j :: 0 <= i < j < |e| ==> KeyRank(e[i].0) < KeyRank(e[j].0) < 4
  {
    var m, f, s, x := SlotEntry("must", n.must), SlotEntry("filter", n.filter),
                      SlotEntry("should", n.should), SlotEntry("must_not", n.mustNot);
    var e := m + (f + (s + x));
    assert NodeJson(n).entries == e;
    assert KeyRank("must") == 0 && KeyRank("filter") == 1 && KeyRank("should") == 2 && KeyRank("must_not") == 3;
    assert x + [] == x;
    PrependSlot("must_not", n.mustNot, []);
    PrependSlot("should", n.should, x);
    PrependSlot("filter", n.filter, s + x);
    PrependSlot("must", n.must, f + (s + x));
    RankedAscending(e, 0);
  }

  /** Entries whose key ranks strictly increase from at least `lo`, all below 4. */
  predicate Ranked(e: seq<(string, Json)>, lo: nat)
    decreases |e|
  {
    e == [] || (lo <= KeyRank(e[0].0) < 4 && Ranked(e[1..], KeyRank(e[0].0) + 1))
  }

  lemma {:induction false} RankedAscending(e: seq<(string, Json)>, lo: nat)
    requires Ranked(e, lo)
    ensures forall i :: 0 <= i < |e| ==> lo <= KeyRank(e[i].0) < 4
    ensures forall i, j :: 0 <= i < j < |e| ==> KeyRank(e[i].0) < KeyRank(e[j].0)
    decreases |e|
  {
    if e != [] {
      RankedAscending(e[1..], KeyRank(e[0].0) + 1);
      assert forall i :: 1 <= i < |e| ==> e[i] == e[1..][i - 1];
    }
  }

  /** Putting a slot's entry in front of entries of higher rank keeps the ranks increasing. */
  lemma {:induction false} PrependSlot(key: string, items: seq<Item>, rest: seq<(string, Json)>)
    requires KeyRank(key) < 4 && Ranked(rest, KeyRank(key) + 1)
    ensures Ranked(SlotEntry(key, items) + rest, KeyRank(key))
  {
    if items == [] {
      assert SlotEntry(key, items) + rest == rest;
      RankedLower(rest, KeyRank(key) + 1, KeyRank(key));
    } else {
      assert (SlotEntry(key, items) + rest)[1..] == rest;
    }
  }

  lemma {:induction false} RankedLower(e: seq<(string, Json)>, lo: nat, lower: nat)
    requires Ranked(e, lo) && lower <= lo
    ensures Ranked(e, lower)
  {
  }

  /** A node serialises to the empty array exactly when all four slots are empty. */
  lemma {:induction false} NodeJsonEmpty(n: BoolNode)
    ensures NodeJson(n) == JMap([]) <==> n == Empty
  {
    if n != Empty {
      assert |NodeJson(n).entries| > 0;
    }
  }

  // ---------------------------------------------------------------------
  // The mutable node
  // ---------------------------------------------------------------------

  class ElasticsearchBooleanQuery {
    var must: seq<Item>
    var filter: seq<Item>
    var should: seq<Item>
    var mustNot: seq<Item>

    /** The node's current value. */
    function Snapshot(): BoolNode
      reads this
    {
      BoolNode(must, filter, should, mustNot)
    }

    constructor ()
      ensures Snapshot() == Empty
    {
      must, filter, should, mustNot := [], [], [], [];
    }

    /** `add($condition, $negated, $should)`. */
    method Add(c: Item, negated: bool, disjunctive: bool)
      modifies this
      ensures Snapshot() == Added(old(Snapshot()), c, negated, disjunctive)
    {
      if negated {
        if disjunctive {
          var child := new ElasticsearchBooleanQuery();
          child.mustNot := child.mustNot + [c];
          assert child.Snapshot() == Negation(c);
          should := should + [Sub(child.Snapshot())];
        } else {
          mustNot := mustNot + [c];
        }
      } else {
        if disjunctive {
          should := should + [c];
        } else {
          filter := filter + [c];
        }
      }
    }

    /** `addNormal($condition, $should)`: the same effect as `add` with `negated` false. */
    method AddNormal(c: Item, disjunctive: bool := false)
      modifies this
      ensures Snapshot() == Added(old(Snapshot()), c, false, disjunctive)
    {
      if disjunctive {
        should := should + [c];
      } else {
        filter := filter + [c];
      }
    }

    /** `addNegated($condition, $should)`: the same effect as `add` with `negated` true. */
    method AddNegated(c: Item, disjunctive: bool := false)
      modifies this
      ensures Snapshot() == Added(old(Snapshot()), c, true, disjunctive)
    {
      if disjunctive {
        var child := new ElasticsearchBooleanQuery();
        child.mustNot := child.mustNot + [c];
        assert child.Snapshot() == Negation(c);
        should := should + [Sub(child.Snapshot())];
      } else {
        mustNot := mustNot + [c];
      }
    }

    /** `toArray()`: builds the keyed array slot by slot. */
    method ToArray() returns (data: Json)
      ensures data == NodeJson(Snapshot())
    {
      var entries: seq<(string, Json)> := [];
      if must != [] {
        var list := SerializeSlot(must);
        entries := entries + [("must", JList(list))];
      }
      assert entries == SlotEntry("must", must);
      if filter != [] {
        var list := SerializeSlot(filter);
        entries := entries + [("filter", JList(list))];
      }
      assert entries == SlotEntry("must", must) + SlotEntry("filter", filter);
      if should != [] {
        var list := SerializeSlot(should);
        entries := entries + [("should", JList(list))];
      }
      assert entries == SlotEntry("must", must) + SlotEntry("filter", filter) + SlotEntry("should", should);
      if mustNot != [] {
        var list := SerializeSlot(mustNot);
        entries := entries + [("must_not", JList(list))];
      }
      data := JMap(entries);
    }

    /** The `foreach` of `toArray` over one slot. */
    static method SerializeSlot(items: seq<Item>) returns (list: seq<Json>)
      ensures list == ItemsJson(items)
    {
      list := [];
      for i := 0 to |items|
        invariant |list| == i
        invariant forall k :: 0 <= k < i ==> list[k] == ItemJson(items[k])
      {
        list := list + [ItemJson(items[i])];
      }
    }
  }
}
