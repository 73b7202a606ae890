// packages/agent/src/context-engine.ts, canonicalize, on values that share and cycle.

module ValueGraph {
  import opened Wrappers
  import opened Json

  /** A value as JavaScript holds it: arrays and objects are references. */
  datatype Value = Text(text: string) | Simple(v: J) | Nothing | Ref(id: nat)

  datatype Node = ArrayNode(items: seq<Value>) | ObjectNode(fields: seq<(string, Value)>)

  type Heap = map<nat, Node>

  /** The values held by a node, in insertion order. */
  function Children(n: Node): seq<Value> {
    match n
    case ArrayNode(items) => items
    case ObjectNode(fields) => Values(fields)
  }

  function Values(fields: seq<(string, Value)>): (vs: seq<Value>)
    ensures |vs| == |fields| && forall i :: 0 <= i < |fields| ==> vs[i] == fields[i].1
  {
    seq(|fields|, i requires 0 <= i < |fields| => fields[i].1)
  }

  predicate Resolved(h: Heap, v: Value) {
    && (v.Ref? ==> v.id in h)
    && (v.Simple? ==> v.v.Null? || v.v.Bool? || v.v.Num?)
  }

  predicate DistinctFields(fields: seq<(string, Value)>) {
    forall i, j :: 0 <= i < j < |fields| ==> fields[i].0 != fields[j].0
  }

  /** No dangling reference, no key twice, and every cycle passes through an object: along arrays alone `rank` goes
      down. */
  ghost predicate HeapOk(h: Heap, rank: map<nat, nat>, top: nat) {
    && (forall id :: id in h ==> forall i :: 0 <= i < |Children(h[id])| ==> Resolved(h, Children(h[id])[i]))
    && (forall id :: id in h && h[id].ObjectNode? ==> DistinctFields(h[id].fields))
    && (forall id :: id in h && h[id].ArrayNode? ==> id in rank && rank[id] < top)
    && (forall id :: id in h && h[id].ArrayNode? ==> forall i :: 0 <= i < |h[id].items| ==>
          Height(h, rank, h[id].items[i]) <= rank[id])
  }

  ghost function Height(h: Heap, rank: map<nat, nat>, v: Value): nat {
    if v.Ref? && v.id in h && h[v.id].ArrayNode? && v.id in rank then rank[v.id] + 1 else 0
  }

  function Objects(h: Heap): set<nat> {
    set id | id in h && h[id].ObjectNode?
  }

  /** The tree node over the trees of its children. */
  function Assemble(n: Node, values: seq<J>): J
    requires |values| == |Children(n)|
  {
    match n
    case ArrayNode(_) => Arr(values)
    case ObjectNode(fields) => Obj(seq(|fields|, i requires 0 <= i < |fields| => (fields[i].0, values[i])))
  }

  /** The tree a value unfolds to, or `None` once an object lies inside itself or inside `seen`. */
  ghost function Unfold(h: Heap, rank: map<nat, nat>, top: nat, v: Value, seen: set<nat>): Option<J>
    requires HeapOk(h, rank, top) && Resolved(h, v)
    decreases |Objects(h) - seen|, Height(h, rank, v), 0, 0
  {
    match v
    case Text(s) => Some(Str(s))
    case Simple(j) => Some(j)
    case Nothing => Some(Undef)
    case Ref(id) =>
      if h[id].ArrayNode? then
        var items := UnfoldAll(h, rank, top, Children(h[id]), rank[id], seen);
        if items.None? then None else Some(Assemble(h[id], items.value))
      else if id in seen then None
      else
        FewerLeft(h, id, seen);
        var values := UnfoldAll(h, rank, top, Children(h[id]), top, seen + {id});
        if values.None? then None else Some(Assemble(h[id], values.value))
  }

  ghost function UnfoldAll(h: Heap, rank: map<nat, nat>, top: nat, vs: seq<Value>, n: nat, seen: set<nat>): (r: Option<seq<J>>)
    requires HeapOk(h, rank, top)
    requires forall i :: 0 <= i < |vs| ==> Resolved(h, vs[i]) && Height(h, rank, vs[i]) <= n
    ensures r.Some? ==> |r.value| == |vs|
    decreases |Objects(h) - seen|, n, 1, |vs|
  {
    if vs == [] then Some([])
    else
      var before := UnfoldAll(h, rank, top, vs[..|vs| - 1], n, seen);
      if before.None? then None
      else
        var last := Unfold(h, rank, top, vs[|vs| - 1], seen);
        if last.None? then None else Some(before.value + [last.value])
  }

  lemma FewerLeft(h: Heap, id: nat, seen: set<nat>)
    requires id in Objects(h) && id !in seen
    ensures |Objects(h) - (seen + {id})| < |Objects(h) - seen|
  {
    assert id in Objects(h) - seen;
    Smaller(Objects(h) - (seen + {id}), Objects(h) - seen);
  }

  lemma Smaller<T>(a: set<T>, b: set<T>)
    requires a < b
    ensures |a| < |b|
  {
    assert b == a + (b - a);
  }

  // ----- Reference: cycles -----

  predicate Edge(h: Heap, a: nat, b: nat) {
    a in h && Ref(b) in Children(h[a])
  }

  predicate Path(h: Heap, v: Value, p: seq<nat>) {
    && |p| > 0 && v == Ref(p[0])
    && (forall i :: 0 <= i < |p| ==> p[i] in h)
    && (forall i :: 0 <= i < |p| - 1 ==> Edge(h, p[i], p[i + 1]))
  }

  function Last(p: seq<nat>): nat
    requires |p| > 0
  {
    p[|p| - 1]
  }

  /** A path from `v` that comes back to a node it has passed. */
  ghost predicate ReachesCycle(h: Heap, v: Value) {
    exists p :: Path(h, v, p) && Last(p) in p[..|p| - 1]
  }

  /** A path that ends in an object already seen, or passed on the way. */
  ghost predicate Clash(h: Heap, v: Value, p: seq<nat>, seen: set<nat>) {
    Path(h, v, p) && h[Last(p)].ObjectNode? && (Last(p) in seen || Last(p) in p[..|p| - 1])
  }

  ghost predicate Clashes(h: Heap, v: Value, seen: set<nat>) {
    exists p :: Clash(h, v, p, seen)
  }

  lemma PathExtends(h: Heap, id: nat, v: Value, p: seq<nat>)
    requires id in h && v in Children(h[id]) && Path(h, v, p)
    ensures Path(h, Ref(id), [id] + p) && Last([id] + p) == Last(p)
  {
    var q := [id] + p;
    forall k | 0 <= k < |q| - 1 ensures Edge(h, q[k], q[k + 1]) {
      if k > 0 {
        assert Edge(h, p[k - 1], p[k]);
      }
    }
  }

  lemma ClashExtends(h: Heap, id: nat, v: Value, p: seq<nat>, seen: set<nat>)
    requires id in h && v in Children(h[id])
    requires Clash(h, v, p, if h[id].ObjectNode? then seen + {id} else seen)
    ensures Clashes(h, Ref(id), seen)
  {
    var q := [id] + p;
    PathExtends(h, id, v, p);
    if Last(p) in p[..|p| - 1] {
      var k :| 0 <= k < |p| - 1 && p[k] == Last(p);
      assert q[..|q| - 1][k + 1] == Last(q);
    } else if Last(p) == id {
      assert q[..|q| - 1][0] == id;
    }
    assert Clash(h, Ref(id), q, seen);
  }

  lemma ClashShortens(h: Heap, id: nat, p: seq<nat>, seen: set<nat>)
    requires id in h && Clash(h, Ref(id), p, seen) && (h[id].ObjectNode? ==> id !in seen)
    ensures AnyClashes(h, Children(h[id]), if h[id].ObjectNode? then seen + {id} else seen)
  {
    if |p| > 1 {
      var q := p[1..];
      assert Edge(h, p[0], p[1]);
      var i :| 0 <= i < |Children(h[id])| && Children(h[id])[i] == Ref(p[1]);
      forall k | 0 <= k < |q| - 1 ensures Edge(h, q[k], q[k + 1]) {
        assert Edge(h, p[k + 1], p[k + 2]);
      }
      if Last(p) in p[..|p| - 1] {
        var k :| 0 <= k < |p| - 1 && p[k] == Last(p);
        if k > 0 {
          assert q[..|q| - 1][k - 1] == Last(q);
        }
      }
      assert Clash(h, Children(h[id])[i], q, if h[id].ObjectNode? then seen + {id} else seen);
    }
  }

  ghost predicate AnyClashes(h: Heap, vs: seq<Value>, seen: set<nat>) {
    exists i :: 0 <= i < |vs| && Clashes(h, vs[i], seen)
  }

  lemma {:induction false} UnfoldAllExact(h: Heap, rank: map<nat, nat>, top: nat, vs: seq<Value>, n: nat, seen: set<nat>)
    requires HeapOk(h, rank, top)
    requires forall i :: 0 <= i < |vs| ==> Resolved(h, vs[i]) && Height(h, rank, vs[i]) <= n
    ensures UnfoldAll(h, rank, top, vs, n, seen).None? <==> AnyClashes(h, vs, seen)
    decreases |Objects(h) - seen|, n, 1, |vs|
  {
    if vs != [] {
      var k := |vs| - 1;
      UnfoldAllExact(h, rank, top, vs[..k], n, seen);
      UnfoldExact(h, rank, top, vs[k], seen);
      if AnyClashes(h, vs[..k], seen) {
        var i :| 0 <= i < k && Clashes(h, vs[..k][i], seen);
        assert Clashes(h, vs[i], seen);
      }
      if i :| 0 <= i < |vs| && Clashes(h, vs[i], seen) {
        assert i < k ==> vs[..k][i] == vs[i];
      }
    }
  }

  /** With `seen` as it is, unfolding fails exactly when some path clashes with it or with itself. */
  lemma {:induction false} UnfoldExact(h: Heap, rank: map<nat, nat>, top: nat, v: Value, seen: set<nat>)
    requires HeapOk(h, rank, top) && Resolved(h, v)
    ensures Unfold(h, rank, top, v, seen).None? <==> Clashes(h, v, seen)
    decreases |Objects(h) - seen|, Height(h, rank, v), 0, 0
  {
    if v.Ref? {
      var id := v.id;
      if h[id].ArrayNode? {
        UnfoldAllExact(h, rank, top, Children(h[id]), rank[id], seen);
        NodeExact(h, id, seen);
      } else if id in seen {
        assert Clash(h, v, [id], seen);
      } else {
        FewerLeft(h, id, seen);
        UnfoldAllExact(h, rank, top, Children(h[id]), top, seen + {id});
        NodeExact(h, id, seen);
      }
    }
  }

  lemma NodeExact(h: Heap, id: nat, seen: set<nat>)
    requires id in h && (h[id].ObjectNode? ==> id !in seen)
    ensures Clashes(h, Ref(id), seen)
       <==> AnyClashes(h, Children(h[id]), if h[id].ObjectNode? then seen + {id} else seen)
  {
    var seen' := if h[id].ObjectNode? then seen + {id} else seen;
    if AnyClashes(h, Children(h[id]), seen') {
      var i :| 0 <= i < |Children(h[id])| && Clashes(h, Children(h[id])[i], seen');
      var p :| Clash(h, Children(h[id])[i], p, seen');
      ClashExtends(h, id, Children(h[id])[i], p, seen);
    }
    if Clashes(h, Ref(id), seen) {
      var p :| Clash(h, Ref(id), p, seen);
      ClashShortens(h, id, p, seen);
    }
  }

  // ----- What is unfolded -----

  /** The tree `j` looks like the value `v`, followed through every reference. */
  predicate Mirrors(h: Heap, v: Value, j: J)
    decreases j
  {
    match v
    case Text(s) => j == Str(s)
    case Simple(x) => j == x
    case Nothing => j == Undef
    case Ref(id) =>
      id in h
      && match h[id]
         case ArrayNode(items) =>
           j.Arr? && |j.items| == |items| && forall i :: 0 <= i < |j.items| ==> Mirrors(h, items[i], j.items[i])
         case ObjectNode(fields) =>
           j.Obj? && |j.fields| == |fields|
           && forall i :: 0 <= i < |j.fields| ==> j.fields[i].0 == fields[i].0 && Mirrors(h, fields[i].1, j.fields[i].1)
  }

  lemma {:induction false} UnfoldAllMirrors(h: Heap, rank: map<nat, nat>, top: nat, vs: seq<Value>, n: nat, seen: set<nat>)
    requires HeapOk(h, rank, top)
    requires forall i :: 0 <= i < |vs| ==> Resolved(h, vs[i]) && Height(h, rank, vs[i]) <= n
    requires UnfoldAll(h, rank, top, vs, n, seen).Some?
    ensures forall i :: 0 <= i < |vs| ==> Mirrors(h, vs[i], UnfoldAll(h, rank, top, vs, n, seen).value[i])
    decreases |Objects(h) - seen|, n, 1, |vs|
  {
    if vs != [] {
      var k := |vs| - 1;
      UnfoldAllMirrors(h, rank, top, vs[..k], n, seen);
      UnfoldMirrors(h, rank, top, vs[k], seen);
    }
  }

  /** The tree a value unfolds to is the value, followed through every reference. */
  lemma {:induction false} UnfoldMirrors(h: Heap, rank: map<nat, nat>, top: nat, v: Value, seen: set<nat>)
    requires HeapOk(h, rank, top) && Resolved(h, v) && Unfold(h, rank, top, v, seen).Some?
    ensures Mirrors(h, v, Unfold(h, rank, top, v, seen).value)
    decreases |Objects(h) - seen|, Height(h, rank, v), 0, 0
  {
    if v.Ref? {
      var id := v.id;
      if h[id].ArrayNode? {
        UnfoldAllMirrors(h, rank, top, Children(h[id]), rank[id], seen);
      } else {
        FewerLeft(h, id, seen);
        UnfoldAllMirrors(h, rank, top, Children(h[id]), top, seen + {id});
      }
    }
  }

  // ----- A cycle always passes an object -----

  lemma {:induction false} ArraysDescend(h: Heap, rank: map<nat, nat>, top: nat, p: seq<nat>, i: nat, j: nat)
    requires HeapOk(h, rank, top) && i < j < |p| && Path(h, Ref(p[0]), p)
    requires forall k :: i <= k <= j ==> h[p[k]].ArrayNode?
    ensures rank[p[j]] < rank[p[i]]
    decreases j - i
  {
    assert Edge(h, p[j - 1], p[j]);
    var k :| 0 <= k < |h[p[j - 1]].items| && h[p[j - 1]].items[k] == Ref(p[j]);
    assert Height(h, rank, Ref(p[j])) <= rank[p[j - 1]];
    if i < j - 1 {
      ArraysDescend(h, rank, top, p, i, j - 1);
    }
  }

  /** Going on from a repeated node up to an object on the cycle. */
  lemma CycleHasObject(h: Heap, rank: map<nat, nat>, top: nat, v: Value, p: seq<nat>)
    requires HeapOk(h, rank, top) && Path(h, v, p) && Last(p) in p[..|p| - 1]
    ensures Clashes(h, v, {})
  {
    var n := |p| - 1;
    var i :| 0 <= i < n && p[i] == p[n];
    if h[p[n]].ObjectNode? {
      assert Clash(h, v, p, {});
    } else {
      if forall k :: i <= k <= n ==> h[p[k]].ArrayNode? {
        ArraysDescend(h, rank, top, p, i, n);
      }
      var k :| i <= k <= n && h[p[k]].ObjectNode?;
      PathGoesOn(h, v, p, i, k);
      assert Clash(h, v, p + p[i + 1..k + 1], {});
    }
  }

  lemma PathGoesOn(h: Heap, v: Value, p: seq<nat>, i: nat, k: nat)
    requires Path(h, v, p) && i < k < |p| - 1 && p[i] == Last(p)
    ensures var q := p + p[i + 1..k + 1]; Path(h, v, q) && Last(q) == p[k] && Last(q) in q[..|q| - 1]
  {
    var n := |p| - 1;
    var q := p + p[i + 1..k + 1];
    forall j | 0 <= j < |q| - 1 ensures Edge(h, q[j], q[j + 1]) {
      if j < n {
        assert Edge(h, p[j], p[j + 1]);
      } else {
        assert Edge(h, p[j - n + i], p[j - n + i + 1]);
      }
    }
    assert q[..|q| - 1][k] == p[k];
  }

  /** Cycle detection is exact: unfolding fails exactly when a cycle can be reached, however objects are shared. */
  lemma CycleExact(h: Heap, rank: map<nat, nat>, top: nat, v: Value)
    requires HeapOk(h, rank, top) && Resolved(h, v)
    ensures Unfold(h, rank, top, v, {}).None? <==> ReachesCycle(h, v)
  {
    UnfoldExact(h, rank, top, v, {});
    if Clashes(h, v, {}) {
      var p :| Clash(h, v, p, {});
      assert Path(h, v, p) && Last(p) in p[..|p| - 1];
    }
    if ReachesCycle(h, v) {
      var p :| Path(h, v, p) && Last(p) in p[..|p| - 1];
      CycleHasObject(h, rank, top, v, p);
    }
  }
}
