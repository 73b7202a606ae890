// packages/agent/src/context-engine.ts: canonicalize and canonicalizeToolSchema as code.

module Canonicalizers {
  import opened Wrappers
  import opened Sequences
  import opened Sorting
  import opened Text
  import opened Json
  import opened FieldProofs
  import opened CanonicalProofs
  import opened ValueGraph

  function FieldLeq(): ((string, Value), (string, Value)) -> bool {
    (f: (string, Value), g: (string, Value)) => StringLeq(f.0, g.0)
  }

  /** What `canonicalize` returns for a value: the canonical form of the tree it unfolds to; `None` is the thrown error. */
  ghost function Canonical(h: Heap, rank: map<nat, nat>, top: nat, normalizeText: bool, v: Value, seen: set<nat>): Option<J>
    requires HeapOk(h, rank, top) && Resolved(h, v)
  {
    var tree := Unfold(h, rank, top, v, seen);
    if tree.None? then None else Some(Canon(normalizeText, tree.value))
  }

  // ----- The children, one by one -----

  /** The values unfold to these trees, one by one. */
  ghost predicate Unfolds(h: Heap, rank: map<nat, nat>, top: nat, vs: seq<Value>, seen: set<nat>, trees: seq<J>)
    requires HeapOk(h, rank, top)
  {
    |trees| == |vs| && forall i :: 0 <= i < |vs| ==> Resolved(h, vs[i]) && Unfold(h, rank, top, vs[i], seen) == Some(trees[i])
  }

  lemma UnfoldsNext(h: Heap, rank: map<nat, nat>, top: nat, vs: seq<Value>, seen: set<nat>, trees: seq<J>, tree: J)
    requires HeapOk(h, rank, top) && |trees| < |vs| && Unfolds(h, rank, top, vs[..|trees|], seen, trees)
    requires Resolved(h, vs[|trees|]) && Unfold(h, rank, top, vs[|trees|], seen) == Some(tree)
    ensures Unfolds(h, rank, top, vs[..|trees| + 1], seen, trees + [tree])
  {
    var n := |trees|;
    forall i | 0 <= i < n + 1
      ensures Resolved(h, vs[i]) && Unfold(h, rank, top, vs[i], seen) == Some((trees + [tree])[i])
    {
      assert i < n ==> vs[..n][i] == vs[i];
    }
  }

  lemma {:induction false} AllUnfold(h: Heap, rank: map<nat, nat>, top: nat, vs: seq<Value>, n: nat, seen: set<nat>, trees: seq<J>)
    requires HeapOk(h, rank, top) && Unfolds(h, rank, top, vs, seen, trees)
    requires forall i :: 0 <= i < |vs| ==> Resolved(h, vs[i]) && Height(h, rank, vs[i]) <= n
    ensures UnfoldAll(h, rank, top, vs, n, seen) == Some(trees)
  {
    if vs != [] {
      var k := |vs| - 1;
      AllUnfold(h, rank, top, vs[..k], n, seen, trees[..k]);
      assert trees == trees[..k] + [trees[k]];
    }
  }

  lemma ChildrenResolved(h: Heap, rank: map<nat, nat>, top: nat, id: nat)
    requires HeapOk(h, rank, top) && id in h
    ensures forall i :: 0 <= i < |Children(h[id])| ==> Resolved(h, Children(h[id])[i]) && Height(h, rank, Children(h[id])[i]) <= top
    ensures h[id].ArrayNode? ==> forall i :: 0 <= i < |Children(h[id])| ==> Height(h, rank, Children(h[id])[i]) <= rank[id]
  {
  }

  lemma {:induction false} OneFails(h: Heap, rank: map<nat, nat>, top: nat, vs: seq<Value>, n: nat, seen: set<nat>, i: nat)
    requires HeapOk(h, rank, top) && i < |vs|
    requires forall i :: 0 <= i < |vs| ==> Resolved(h, vs[i]) && Height(h, rank, vs[i]) <= n
    requires Unfold(h, rank, top, vs[i], seen).None?
    ensures UnfoldAll(h, rank, top, vs, n, seen).None?
  {
    if i < |vs| - 1 {
      OneFails(h, rank, top, vs[..|vs| - 1], n, seen, i);
    }
  }

  // ----- Fields visited in key order -----

  lemma SortedField(fields: seq<(string, Value)>, j: nat) returns (i: nat)
    requires j < |Sort(FieldLeq(), fields)|
    ensures i < |fields| && fields[i] == Sort(FieldLeq(), fields)[j]
  {
    SortPermutes(FieldLeq(), fields);
    assert Sort(FieldLeq(), fields)[j] in multiset(fields);
    i := IndexOf(fields, Sort(FieldLeq(), fields)[j]);
  }

  lemma FieldPlace(fields: seq<(string, Value)>, i: nat) returns (j: nat)
    requires i < |fields|
    ensures j < |Sort(FieldLeq(), fields)| && fields[i] == Sort(FieldLeq(), fields)[j]
  {
    SortPermutes(FieldLeq(), fields);
    assert fields[i] in multiset(Sort(FieldLeq(), fields));
    j := IndexOf(Sort(FieldLeq(), fields), fields[i]);
  }

  lemma FieldOrder()
    ensures TotalPreorder(FieldLeq())
  {
    forall a, b ensures FieldLeq()(a, b) || FieldLeq()(b, a) {
      StringTotal(a.0, b.0);
    }
    forall a, b, c | FieldLeq()(a, b) && FieldLeq()(b, c) ensures FieldLeq()(a, c) {
      StringTransitive(a.0, b.0, c.0);
    }
  }

  lemma {:induction false} InsertKeepsDistinct(x: (string, Value), f: seq<(string, Value)>)
    requires DistinctFields(f) && forall i :: 0 <= i < |f| ==> f[i].0 != x.0
    ensures DistinctFields(Insert(FieldLeq(), x, f))
    ensures forall y :: y in Insert(FieldLeq(), x, f) <==> y == x || y in f
  {
    if f != [] && !FieldLeq()(x, f[0]) {
      InsertKeepsDistinct(x, f[1..]);
      var rest := Insert(FieldLeq(), x, f[1..]);
      forall i | 0 <= i < |rest| ensures rest[i].0 != f[0].0 {
        assert rest[i] in rest;
      }
      assert f == [f[0]] + f[1..];
    }
  }

  lemma {:induction false} SortKeepsDistinct(f: seq<(string, Value)>)
    requires DistinctFields(f)
    ensures DistinctFields(Sort(FieldLeq(), f))
    ensures forall y :: y in Sort(FieldLeq(), f) <==> y in f
  {
    if f != [] {
      SortKeepsDistinct(f[1..]);
      var rest := Sort(FieldLeq(), f[1..]);
      forall i | 0 <= i < |rest| ensures rest[i].0 != f[0].0 {
        assert rest[i] in rest;
      }
      InsertKeepsDistinct(f[0], rest);
      assert f == [f[0]] + f[1..];
    }
  }

  /** `table` holds a value for every field, keyed alike. */
  predicate Keyed(fields: seq<(string, Value)>, table: Fields) {
    |table| == |fields| && forall i :: 0 <= i < |fields| ==> table[i].0 == fields[i].0
  }

  lemma KeyedSorted(fields: seq<(string, Value)>, table: Fields)
    requires DistinctFields(fields) && Keyed(Sort(FieldLeq(), fields), table)
    ensures ByKey(Defined(table))
  {
    var s := Sort(FieldLeq(), fields);
    FieldOrder();
    SortSorted(FieldLeq(), fields);
    SortKeepsDistinct(fields);
    forall i, j | 0 <= i < j < |table| ensures StringLeq(table[i].0, table[j].0) && table[i].0 != table[j].0 {
      assert FieldLeq()(s[i], s[j]);
    }
    DefinedByKey(table);
  }

  lemma {:induction false} DefinedByKey(f: Fields)
    requires ByKey(f)
    ensures ByKey(Defined(f)) && forall x :: x in Defined(f) ==> x in f
  {
    if f != [] {
      var n := |f| - 1;
      DefinedByKey(f[..n]);
      assert f == f[..n] + [f[n]];
      forall i | 0 <= i < |Defined(f[..n])|
        ensures StringLeq(Defined(f[..n])[i].0, f[n].0) && Defined(f[..n])[i].0 != f[n].0
      {
        assert Defined(f[..n])[i] in f[..n];
      }
    }
  }

  /** Visiting the fields in key order and dropping undefined values gives the canonical object. */
  lemma VisitedInOrder(fields: seq<(string, Value)>, table: Fields, visited: Fields)
    requires DistinctFields(fields) && Keyed(fields, table) && Keyed(Sort(FieldLeq(), fields), visited)
    requires forall i, j :: 0 <= i < |fields| && 0 <= j < |visited| && fields[i].0 == visited[j].0 ==> table[i].1 == visited[j].1
    ensures Defined(visited) == Normal(table)
  {
    KeyedSorted(fields, visited);
    SortKeepsDistinct(fields);
    assert DistinctKeys(table) && DistinctKeys(visited);
    NormalKeeps(table);
    DefinedExact(visited);
    forall x ensures x in Defined(visited) <==> x in Normal(table) {
      NormalMember(table, x);
      if x.1 != Undef {
        GetExact(table, x.0, x.1);
        assert (x.0, x.1) == x;
        SameField(fields, table, visited, x);
      }
    }
    ByKeyUnique(Defined(visited), Normal(table));
  }

  lemma SameField(fields: seq<(string, Value)>, table: Fields, visited: Fields, x: (string, J))
    requires DistinctFields(fields) && Keyed(fields, table) && Keyed(Sort(FieldLeq(), fields), visited)
    requires forall i, j :: 0 <= i < |fields| && 0 <= j < |visited| && fields[i].0 == visited[j].0 ==> table[i].1 == visited[j].1
    ensures x in table <==> x in visited
  {
    if x in table {
      var i :| 0 <= i < |table| && table[i] == x;
      var j := FieldPlace(fields, i);
      assert visited[j] == x;
    }
    if x in visited {
      var j :| 0 <= j < |visited| && visited[j] == x;
      var i := SortedField(fields, j);
      assert table[i] == x;
    }
  }

  // ----- The code -----

  class Canonicalizer {
    const heap: Heap
    const normalizeText: bool
    ghost const rank: map<nat, nat>
    ghost const top: nat
    var seen: set<nat>

    constructor (heap: Heap, normalizeText: bool, ghost rank: map<nat, nat>, ghost top: nat)
      ensures this.heap == heap && this.normalizeText == normalizeText && this.rank == rank && this.top == top
      ensures seen == {}
    {
      this.heap := heap;
      this.normalizeText := normalizeText;
      this.rank := rank;
      this.top := top;
      seen := {};
    }

    /** `canonicalize`; without an error `seen` is left as it was found. */
    method Canonicalize(v: Value) returns (r: Option<J>)
      requires HeapOk(heap, rank, top) && Resolved(heap, v)
      modifies this
      ensures r == Canonical(heap, rank, top, normalizeText, v, old(seen))
      ensures r.Some? ==> seen == old(seen)
      decreases |Objects(heap) - seen|, Height(heap, rank, v), 0, 0
    {
      match v {
        case Text(s) => r := Some(Str(if normalizeText then NormalizeNewlines(s) else s));
        case Simple(j) => r := Some(j);
        case Nothing => r := Some(Undef);
        case Ref(id) =>
          match heap[id] {
            case ArrayNode(items) => r := CanonicalizeArray(id, items);
            case ObjectNode(fields) =>
              if id in seen {
                return None;
              }
              FewerLeft(heap, id, seen);
              ghost var outside := seen;
              seen := seen + {id};
              r := CanonicalizeFields(id, fields);
              if r.Some? {
                seen := seen - {id};
                assert seen == outside;
              }
          }
      }
    }

    method CanonicalizeArray(id: nat, items: seq<Value>) returns (r: Option<J>)
      requires HeapOk(heap, rank, top) && id in heap && heap[id] == ArrayNode(items)
      modifies this
      ensures r == Canonical(heap, rank, top, normalizeText, Ref(id), old(seen))
      ensures r.Some? ==> seen == old(seen)
      decreases |Objects(heap) - seen|, rank[id], 1, 0
    {
      var result: seq<J> := [];
      ghost var trees: seq<J> := [];
      ChildrenResolved(heap, rank, top, id);
      for i := 0 to |items|
        invariant seen == old(seen) && |trees| == |result| == i
        invariant Unfolds(heap, rank, top, items[..i], seen, trees)
        invariant forall k :: 0 <= k < i ==> result[k] == OrNull(Canon(normalizeText, trees[k]))
      {
        assert items[i] == Children(heap[id])[i];
        ghost var tree := Unfold(heap, rank, top, items[i], seen);
        var item := Canonicalize(items[i]);
        if item.None? {
          OneFails(heap, rank, top, items, rank[id], old(seen), i);
          return None;
        }
        UnfoldsNext(heap, rank, top, items, seen, trees, tree.value);
        result := result + [OrNull(item.value)];
        trees := trees + [tree.value];
      }
      assert items[..|items|] == items;
      AllUnfold(heap, rank, top, items, rank[id], seen, trees);
      assert Canon(normalizeText, Arr(trees)) == Arr(result);
      r := Some(Arr(result));
    }

    /** The loop over the sorted keys of an object that has just been put into `seen`. */
    method CanonicalizeFields(id: nat, fields: seq<(string, Value)>) returns (r: Option<J>)
      requires HeapOk(heap, rank, top) && id in heap && heap[id] == ObjectNode(fields) && id in seen
      modifies this
      ensures var tree := UnfoldAll(heap, rank, top, Children(heap[id]), top, old(seen));
        r == if tree.None? then None else Some(Canon(normalizeText, Assemble(heap[id], tree.value)))
      ensures r.Some? ==> seen == old(seen)
      decreases |Objects(heap) - seen|, top, 1, 0
    {
      var sorted := Sort(FieldLeq(), fields);
      var result: seq<(string, J)> := [];
      ghost var trees: seq<J> := [];
      ChildrenResolved(heap, rank, top, id);
      for i := 0 to |sorted|
        invariant seen == old(seen) && |trees| == i
        invariant Unfolds(heap, rank, top, Values(sorted)[..i], seen, trees)
        invariant result == Defined(Visited(sorted[..i], trees, normalizeText))
      {
        ghost var at := SortedField(fields, i);
        assert sorted[i].1 == Children(heap[id])[at];
        var item := Canonicalize(sorted[i].1);
        if item.None? {
          OneFails(heap, rank, top, Children(heap[id]), top, old(seen), at);
          return None;
        }
        ghost var tree := Unfold(heap, rank, top, sorted[i].1, seen).value;
        VisitedNext(sorted, trees, tree, normalizeText);
        UnfoldsNext(heap, rank, top, Values(sorted), seen, trees, tree);
        if item.value != Undef {
          result := result + [(sorted[i].0, item.value)];
        }
        trees := trees + [tree];
      }
      assert sorted[..|sorted|] == sorted && Values(sorted)[..|sorted|] == Values(sorted);
      r := Some(Obj(result));
      ObjectDone(heap, rank, top, normalizeText, id, seen, trees);
    }
  }

  /** The fields visited so far, with their canonical values. */
  ghost function Visited(fields: seq<(string, Value)>, trees: seq<J>, normalizeText: bool): (r: Fields)
    requires |trees| == |fields|
    ensures |r| == |fields|
  {
    seq(|fields|, k requires 0 <= k < |fields| => (fields[k].0, Canon(normalizeText, trees[k])))
  }

  lemma VisitedNext(sorted: seq<(string, Value)>, trees: seq<J>, tree: J, normalizeText: bool)
    requires |trees| < |sorted|
    ensures var i := |trees|;
      Defined(Visited(sorted[..i + 1], trees + [tree], normalizeText))
        == Defined(Visited(sorted[..i], trees, normalizeText))
           + if Canon(normalizeText, tree) == Undef then [] else [(sorted[i].0, Canon(normalizeText, tree))]
  {
    var i := |trees|;
    var next := Visited(sorted[..i + 1], trees + [tree], normalizeText);
    assert next[..i] == Visited(sorted[..i], trees, normalizeText);
  }

  lemma ObjectDone(h: Heap, rank: map<nat, nat>, top: nat, normalizeText: bool, id: nat, seen: set<nat>, trees: seq<J>)
    requires HeapOk(h, rank, top) && id in h && h[id].ObjectNode?
    requires Unfolds(h, rank, top, Values(Sort(FieldLeq(), h[id].fields)), seen, trees)
    ensures UnfoldAll(h, rank, top, Children(h[id]), top, seen).Some?
    ensures Canon(normalizeText, Assemble(h[id], UnfoldAll(h, rank, top, Children(h[id]), top, seen).value))
         == Obj(Defined(Visited(Sort(FieldLeq(), h[id].fields), trees, normalizeText)))
  {
    var fields := h[id].fields;
    var values := InInsertionOrder(h, rank, top, fields, seen, trees);
    ChildrenResolved(h, rank, top, id);
    AllUnfold(h, rank, top, Children(h[id]), top, seen, values);
    FieldsDone(h, rank, top, normalizeText, fields, seen, trees, values);
    var raw := Assemble(h[id], values).fields;
    assert raw == Paired(fields, values);
  }

  function Paired(fields: seq<(string, Value)>, values: seq<J>): (r: Fields)
    requires |values| == |fields|
    ensures |r| == |fields|
  {
    seq(|fields|, i requires 0 <= i < |fields| => (fields[i].0, values[i]))
  }

  lemma FieldsDone(h: Heap, rank: map<nat, nat>, top: nat, normalizeText: bool, fields: seq<(string, Value)>, seen: set<nat>,
                   trees: seq<J>, values: seq<J>)
    requires HeapOk(h, rank, top) && DistinctFields(fields)
    requires Unfolds(h, rank, top, Values(Sort(FieldLeq(), fields)), seen, trees)
    requires Unfolds(h, rank, top, Values(fields), seen, values)
    ensures Canon(normalizeText, Obj(Paired(fields, values)))
         == Obj(Defined(Visited(Sort(FieldLeq(), fields), trees, normalizeText)))
  {
    var sorted := Sort(FieldLeq(), fields);
    var table, visited := CanonFields(normalizeText, Paired(fields, values)), Visited(sorted, trees, normalizeText);
    CanonObject(normalizeText, Paired(fields, values));
    forall i, j | 0 <= i < |fields| && 0 <= j < |visited| && fields[i].0 == visited[j].0 ensures table[i].1 == visited[j].1 {
      var k := SortedField(fields, j);
      assert k == i;
      assert Values(sorted)[j] == Values(fields)[i];
    }
    VisitedInOrder(fields, table, visited);
  }

  lemma InInsertionOrder(h: Heap, rank: map<nat, nat>, top: nat, fields: seq<(string, Value)>, seen: set<nat>, trees: seq<J>)
    returns (values: seq<J>)
    requires HeapOk(h, rank, top) && Unfolds(h, rank, top, Values(Sort(FieldLeq(), fields)), seen, trees)
    ensures Unfolds(h, rank, top, Values(fields), seen, values)
  {
    forall i | 0 <= i < |fields| ensures Resolved(h, fields[i].1) && Unfold(h, rank, top, fields[i].1, seen).Some? {
      var j := FieldPlace(fields, i);
      assert Values(Sort(FieldLeq(), fields))[j] == fields[i].1;
    }
    values := seq(|fields|, i requires 0 <= i < |fields| && Resolved(h, fields[i].1)
                              && Unfold(h, rank, top, fields[i].1, seen).Some? =>
                    Unfold(h, rank, top, fields[i].1, seen).value);
  }

  /** `toCanonicalContextJson`, up to the JSON text: it throws exactly when a cycle can be reached, and gives the
      canonical form of the tree otherwise, so shared values are never rejected. */
  method ToCanonical(heap: Heap, normalizeText: bool, v: Value, ghost rank: map<nat, nat>, ghost top: nat) returns (r: Option<J>)
    requires HeapOk(heap, rank, top) && Resolved(heap, v)
    ensures r.None? <==> ReachesCycle(heap, v)
    ensures r == Canonical(heap, rank, top, normalizeText, v, {})
  {
    CycleExact(heap, rank, top, v);
    var c := new Canonicalizer(heap, normalizeText, rank, top);
    r := c.Canonicalize(v);
  }

  // ----- Tool schemas -----

  function CanonField(): ((string, J)) -> (string, J) {
    (f: (string, J)) => (f.0, SchemaField(f.0, f.1))
  }

  lemma SchemaOfSorted(fields: Fields)
    ensures CanonSchema(Obj(fields)) == Obj(Map(CanonField(), Sort(KeyLeq(), fields)))
  {
    ObjectForms(fields, true);
    assert Map(CanonField(), fields) == SchemaFields(fields);
    SortMapped(KeyLeq(), KeyLeq(), CanonField(), fields);
  }

  lemma SortedKey(fields: Fields, i: nat)
    requires i < |Sort(KeyLeq(), fields)|
    ensures Sort(KeyLeq(), fields)[i] in fields
  {
    SortPermutes(KeyLeq(), fields);
    assert Sort(KeyLeq(), fields)[i] in multiset(fields);
  }

  /** `canonicalizeToolSchema`. */
  method CanonicalizeToolSchema(value: J) returns (r: J)
    ensures r == CanonSchema(value)
    decreases value
  {
    match value {
      case Arr(items) =>
        var result: seq<J> := [];
        for i := 0 to |items|
          invariant |result| == i && forall k :: 0 <= k < i ==> result[k] == CanonSchema(items[k])
        {
          var item := CanonicalizeToolSchema(items[i]);
          result := result + [item];
        }
        r := Arr(result);
      case Str(s) => r := Str(NormalizeNewlines(s));
      case Obj(fields) =>
        var sorted := Sort(KeyLeq(), fields);
        var result: seq<(string, J)> := [];
        for i := 0 to |sorted|
          invariant result == Map(CanonField(), sorted[..i])
        {
          var key, schemaValue := sorted[i].0, sorted[i].1;
          SortedKey(fields, i);
          ghost var at :| 0 <= at < |fields| && fields[at] == sorted[i];
          if key == "required" && StringArray(schemaValue) {
            result := result + [(key, SortedRequired(schemaValue))];
          } else {
            var v := CanonicalizeToolSchema(schemaValue);
            result := result + [(key, v)];
          }
          assert Map(CanonField(), sorted[..i + 1]) == Map(CanonField(), sorted[..i]) + [CanonField()(sorted[i])];
        }
        assert sorted[..|sorted|] == sorted;
        SchemaOfSorted(fields);
        r := Obj(result);
      case _ => r := value;
    }
  }
}
